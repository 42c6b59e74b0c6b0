/** Execution with fallback (internal/reliability) and the fallback list builder (internal/server). */
module Reliability {
  import opened Text
  import opened Types
  import opened Config
  import opened Router

  type Output = JsonMap

  type InvokeOutcome = Result<Output, Fault>

  /** What each adapter answers: the n-th invocation of one execution, on a backend, with a request. */
  type Upstream = (nat, string, AIRequest) -> InvokeOutcome

  /** The configuration and the backends that have an adapter. */
  datatype Manager = Manager(cfg: Config, adapters: set<string>, table: CharTable)

  datatype ExecOptions = ExecOptions(forcePrimaryBackend: string, noFallback: bool)

  datatype ExecutionResult = ExecutionResult(
    status: string, backendName: string, output: Option<Output>, usedFallback: bool, error: Option<Fault>)

  /** One adapter call: which candidate it was for, what was sent and what came back. */
  datatype Invocation = Invocation(index: nat, backend: string, req: AIRequest, outcome: InvokeOutcome)

  function ClassifyError(t: CharTable, e: Fault): string {
    if e.upstreamKind.Some? then
      if e.upstreamKind.value in {"timeout", "backend_unhealthy", "upstream_4xx", "upstream_5xx"}
      then e.upstreamKind.value else "backend_error"
    else if e.deadline then "timeout"
    else if Contains(ToLower(t, e.msg), "unhealthy") then "backend_unhealthy"
    else "backend_error"
  }

  /** The fallback switch is on and a rule of that very backend lists the error's class. */
  predicate ShouldFallback(m: Manager, from: string, e: Fault) {
    m.cfg.fallbackEnabled &&
    exists r :: r in m.cfg.fallbackRules && r.fromBackend == from && ClassifyError(m.table, e) in r.on
  }

  method ShouldFallbackImpl(m: Manager, from: string, e: Fault) returns (yes: bool)
    ensures yes == ShouldFallback(m, from, e)
  {
    if !m.cfg.fallbackEnabled { return false; }
    var trigger := ClassifyError(m.table, e);
    for i := 0 to |m.cfg.fallbackRules|
      invariant forall k :: 0 <= k < i ==>
                              m.cfg.fallbackRules[k].fromBackend != from || trigger !in m.cfg.fallbackRules[k].on
    {
      var rule := m.cfg.fallbackRules[i];
      if rule.fromBackend != from { continue; }
      for j := 0 to |rule.on|
        invariant forall k :: 0 <= k < j ==> rule.on[k] != trigger
      {
        if rule.on[j] == trigger { return true; }
      }
    }
    return false;
  }

  function CloneNonStream(req: AIRequest): AIRequest {
    req.(options := req.options.(stream := false))
  }

  /** What candidate `i` is sent. */
  function RequestFor(m: Manager, req: AIRequest, i: nat): AIRequest {
    if i > 0 && !m.cfg.streamFallbackEnabled && req.options.stream then CloneNonStream(req) else req
  }

  /** A candidate that has both an adapter and a configuration; the others are skipped. */
  predicate Runnable(m: Manager, d: RouteDecision) {
    d.backendName in m.adapters && BackendByName(m.cfg.backends, d.backendName).Some?
  }

  /** The indices of the runnable candidates among the first `n`, in order. */
  function RunnableIndices(m: Manager, cands: seq<RouteDecision>, n: nat): seq<nat>
    requires n <= |cands|
  {
    if n == 0 then []
    else RunnableIndices(m, cands, n - 1) + if Runnable(m, cands[n - 1]) then [n - 1] else []
  }

  lemma {:induction false} RunnableIndicesMeaning(m: Manager, cands: seq<RouteDecision>, n: nat)
    requires n <= |cands|
    ensures var r := RunnableIndices(m, cands, n);
            && (forall x: nat :: x in r <==> x < n && Runnable(m, cands[x]))
            && (forall i, j :: 0 <= i < j < |r| ==> r[i] < r[j])
  {
    if n > 0 {
      RunnableIndicesMeaning(m, cands, n - 1);
      var front := RunnableIndices(m, cands, n - 1);
      forall i | 0 <= i < |front| ensures front[i] < n - 1 { assert front[i] in front; }
    }
  }

  /** The calls are for the first runnable candidates, in order. */
  ghost predicate InOrder(all: seq<nat>, trace: seq<Invocation>) {
    |trace| <= |all| && forall k :: 0 <= k < |trace| ==> trace[k].index == all[k]
  }

  /** Each call is for its own candidate, carries that candidate's request and got the upstream's answer. */
  ghost predicate Genuine(m: Manager, up: Upstream, cands: seq<RouteDecision>, req: AIRequest, trace: seq<Invocation>) {
    forall k :: 0 <= k < |trace| ==>
                  var v := trace[k];
                  && v.index < |cands| && v.backend == cands[v.index].backendName
                  && v.req == RequestFor(m, req, v.index) && v.outcome == up(k, v.backend, v.req)
  }

  /** A failure after which the next candidate is tried. */
  predicate FallsThrough(m: Manager, v: Invocation) {
    v.outcome.Err? && ShouldFallback(m, v.backend, v.outcome.error)
  }

  /** The declarative meaning of one execution: the runnable candidates are called in order until one
      succeeds or fails without a rule to move on. */
  ghost predicate IsExecution(
    m: Manager, up: Upstream, cands: seq<RouteDecision>, req: AIRequest, trace: seq<Invocation>)
  {
    var all := RunnableIndices(m, cands, |cands|);
    && Genuine(m, up, cands, req, trace)
    && InOrder(all, trace)
    && (forall k :: 0 <= k < |trace| - 1 ==> FallsThrough(m, trace[k]))
    && (|trace| < |all| ==> trace != [] && !FallsThrough(m, trace[|trace| - 1]))
  }

  /** The same execution computed call by call. */
  function Trace(m: Manager, up: Upstream, cands: seq<RouteDecision>, req: AIRequest, i: nat, done: seq<Invocation>)
    : seq<Invocation>
    requires i <= |cands|
    decreases |cands| - i
  {
    if i == |cands| then done
    else if !Runnable(m, cands[i]) then Trace(m, up, cands, req, i + 1, done)
    else
      var sent := RequestFor(m, req, i);
      var v := Invocation(i, cands[i].backendName, sent, up(|done|, cands[i].backendName, sent));
      if FallsThrough(m, v) then Trace(m, up, cands, req, i + 1, done + [v]) else done + [v]
  }

  function Candidates(m: Manager, primary: RouteDecision, fallback: seq<RouteDecision>, opts: ExecOptions)
    : (RouteDecision, seq<RouteDecision>)
  {
    var name := TrimSpace(m.table, opts.forcePrimaryBackend);
    if name == "" then (primary, fallback)
    else (RouteDecision(name, "forced_primary", primary.estimatedCost), if opts.noFallback then [] else fallback)
  }

  function Calls(m: Manager, up: Upstream, req: AIRequest, primary: RouteDecision, fallback: seq<RouteDecision>,
                 opts: ExecOptions): seq<Invocation>
  {
    var (p, f) := Candidates(m, primary, fallback, opts);
    Trace(m, up, [p] + f, req, 0, [])
  }

  const NO_OPTIONS := ExecOptions("", false)

  /** The error noted when a candidate is skipped. */
  function SkipError(m: Manager, d: RouteDecision): Fault {
    Fault(None, false, (if d.backendName !in m.adapters then "adapter" else "backend config") + " not found")
  }

  /** The result reported for a trace. The error of a candidate skipped after the last call replaces that
      call's error, as the loop's `lastErr` does. */
  function ResultOf(m: Manager, primary: RouteDecision, fallback: seq<RouteDecision>, trace: seq<Invocation>)
    : ExecutionResult
  {
    if trace != [] && trace[|trace| - 1].outcome.Ok? then
      var v := trace[|trace| - 1];
      ExecutionResult("success", v.backend, Some(v.outcome.value), v.index > 0, None)
    else
      var cands := [primary] + fallback;
      var err :=
        if trace == [] || (FallsThrough(m, trace[|trace| - 1]) && !Runnable(m, cands[|cands| - 1]))
        then SkipError(m, cands[|cands| - 1])
        else trace[|trace| - 1].outcome.error;
      ExecutionResult("failed", primary.backendName, None, fallback != [], Some(err))
  }

  method ExecuteWithFallbackOpts(m: Manager, up: Upstream, req: AIRequest, primary: RouteDecision,
                                 fallback: seq<RouteDecision>, opts: ExecOptions)
    returns (res: ExecutionResult, trace: seq<Invocation>)
    ensures trace == Calls(m, up, req, primary, fallback, opts)
    ensures var (p, f) := Candidates(m, primary, fallback, opts);
            res == ResultOf(m, p, f, trace) && IsExecution(m, up, [p] + f, req, trace)
  {
    var p, f := primary, fallback;
    var name := TrimSpace(m.table, opts.forcePrimaryBackend);
    if name != "" {
      p := RouteDecision(name, "forced_primary", primary.estimatedCost);
      if opts.noFallback { f := []; }
    }
    res, trace := TryCandidates(m, up, req, p, f);
    TraceIsExecution(m, up, [p] + f, req);
  }

  /** The candidate loop. */
  method TryCandidates(m: Manager, up: Upstream, req: AIRequest, p: RouteDecision, f: seq<RouteDecision>)
    returns (res: ExecutionResult, trace: seq<Invocation>)
    ensures trace == Trace(m, up, [p] + f, req, 0, [])
    ensures res == ResultOf(m, p, f, trace)
  {
    var cands := [p] + f;
    var lastErr: Option<Fault> := None;
    trace := [];
    var i := 0;
    while i < |cands|
      invariant 0 <= i <= |cands|
      invariant Trace(m, up, cands, req, 0, []) == Trace(m, up, cands, req, i, trace)
      invariant trace != [] ==> FallsThrough(m, trace[|trace| - 1])
      invariant lastErr == if i == 0 then None
                           else if Runnable(m, cands[i - 1]) && trace != [] then Some(trace[|trace| - 1].outcome.error)
                           else Some(SkipError(m, cands[i - 1]))
      invariant i > 0 && Runnable(m, cands[i - 1]) ==> trace != []
    {
      var d := cands[i];
      if !Runnable(m, d) {
        lastErr := Some(SkipError(m, d));
        i := i + 1;
        continue;
      }
      var sent := RequestFor(m, req, i);
      var outcome := up(|trace|, d.backendName, sent);
      trace := trace + [Invocation(i, d.backendName, sent, outcome)];
      if outcome.Ok? {
        return ExecutionResult("success", d.backendName, Some(outcome.value), i > 0, None), trace;
      }
      lastErr := Some(outcome.error);
      var goOn := ShouldFallbackImpl(m, d.backendName, outcome.error);
      if !goOn {
        return ExecutionResult("failed", p.backendName, None, f != [], lastErr), trace;
      }
      i := i + 1;
    }
    return ExecutionResult("failed", p.backendName, None, f != [], lastErr), trace;
  }

  lemma TraceIsExecution(m: Manager, up: Upstream, cands: seq<RouteDecision>, req: AIRequest)
    ensures IsExecution(m, up, cands, req, Trace(m, up, cands, req, 0, []))
  {
    TraceFrom(m, up, cands, req, 0, []);
  }

  lemma {:induction false} RunnablePrefix(m: Manager, cands: seq<RouteDecision>, i: nat, n: nat)
    requires i <= n <= |cands|
    ensures RunnableIndices(m, cands, i) <= RunnableIndices(m, cands, n)
    decreases n
  {
    if i < n { RunnablePrefix(m, cands, i, n - 1); }
  }

  lemma {:induction false} TraceFrom(
    m: Manager, up: Upstream, cands: seq<RouteDecision>, req: AIRequest, i: nat, done: seq<Invocation>)
    requires i <= |cands| && Genuine(m, up, cands, req, done) && InOrder(RunnableIndices(m, cands, i), done)
    requires |done| == |RunnableIndices(m, cands, i)|
    requires forall k :: 0 <= k < |done| ==> FallsThrough(m, done[k])
    ensures IsExecution(m, up, cands, req, Trace(m, up, cands, req, i, done))
    decreases |cands| - i
  {
    if i == |cands| { return; }
    if !Runnable(m, cands[i]) { TraceFrom(m, up, cands, req, i + 1, done); return; }
    var sent := RequestFor(m, req, i);
    var v := Invocation(i, cands[i].backendName, sent, up(|done|, cands[i].backendName, sent));
    CallAppended(m, up, cands, req, i, done, v);
    if FallsThrough(m, v) {
      TraceFrom(m, up, cands, req, i + 1, done + [v]);
    } else {
      RunnablePrefix(m, cands, i + 1, |cands|);
    }
  }

  lemma CallAppended(m: Manager, up: Upstream, cands: seq<RouteDecision>, req: AIRequest, i: nat, done: seq<Invocation>,
                     v: Invocation)
    requires i < |cands| && Runnable(m, cands[i]) && Genuine(m, up, cands, req, done)
    requires InOrder(RunnableIndices(m, cands, i), done) && |done| == |RunnableIndices(m, cands, i)|
    requires v.index == i && v.backend == cands[i].backendName && v.req == RequestFor(m, req, i)
    requires v.outcome == up(|done|, v.backend, v.req)
    ensures Genuine(m, up, cands, req, done + [v]) && InOrder(RunnableIndices(m, cands, i + 1), done + [v])
    ensures |done + [v]| == |RunnableIndices(m, cands, i + 1)|
  {
    assert RunnableIndices(m, cands, i + 1) == RunnableIndices(m, cands, i) + [i];
  }

  /** `IsExecution` leaves no freedom: the calls made are determined by the candidates and the answers. */
  lemma ExecutionUnique(m: Manager, up: Upstream, cands: seq<RouteDecision>, req: AIRequest,
                        a: seq<Invocation>, b: seq<Invocation>)
    requires IsExecution(m, up, cands, req, a) && IsExecution(m, up, cands, req, b)
    ensures a == b
  {
    if |a| <= |b| { SamePrefix(m, up, cands, req, a, b); } else { SamePrefix(m, up, cands, req, b, a); }
  }

  lemma SamePrefix(m: Manager, up: Upstream, cands: seq<RouteDecision>, req: AIRequest,
                   a: seq<Invocation>, b: seq<Invocation>)
    requires IsExecution(m, up, cands, req, a) && IsExecution(m, up, cands, req, b) && |a| <= |b|
    ensures a == b
  {
    forall k | 0 <= k < |a| ensures a[k] == b[k] {
      assert a[k].index == b[k].index;
    }
  }

  /** What a caller can rely on about the result of a whole execution. */
  lemma ExecutionResultMeaning(m: Manager, up: Upstream, req: AIRequest, primary: RouteDecision,
                               fallback: seq<RouteDecision>, trace: seq<Invocation>)
    requires IsExecution(m, up, [primary] + fallback, req, trace)
    ensures var res := ResultOf(m, primary, fallback, trace);
            && (res.status == "success" <==> exists k :: 0 <= k < |trace| && trace[k].outcome.Ok?)
            && res.status in {"success", "failed"} && (res.status == "success" <==> res.error.None?)
            && (res.status == "success" ==>
                  && trace[|trace| - 1].outcome == Ok(res.output.value)
                  && res.backendName == trace[|trace| - 1].backend
                  && (res.usedFallback <==> trace[|trace| - 1].index > 0))
            && (res.status == "failed" ==>
                  && res.error.Some? && res.output.None? && res.backendName == primary.backendName
                  && (res.usedFallback <==> fallback != [])
                  && (forall k :: 0 <= k < |trace| ==> trace[k].outcome.Err?)
                  && (|| res.error == Some(SkipError(m, ([primary] + fallback)[|fallback|]))
                      || (trace != [] && res.error == Some(trace[|trace| - 1].outcome.error))))
  {
    assert forall k :: 0 <= k < |trace| - 1 ==> FallsThrough(m, trace[k]);
  }

  /** What a failed execution reports as its use of fallbacks is only that there were some. Exactly when that agrees
      with a fallback having been called: when there was none, or one is runnable and the primary, if it is, fell
      through. */
  lemma FailureFlagIff(m: Manager, up: Upstream, req: AIRequest, primary: RouteDecision, fallback: seq<RouteDecision>,
                       trace: seq<Invocation>)
    requires IsExecution(m, up, [primary] + fallback, req, trace)
    requires ResultOf(m, primary, fallback, trace).status == "failed"
    ensures (ResultOf(m, primary, fallback, trace).usedFallback <==> exists k :: 0 <= k < |trace| && trace[k].index > 0)
            <==>
            || fallback == []
            || ((exists d :: d in fallback && Runnable(m, d)) &&
                (Runnable(m, primary) ==> trace != [] && FallsThrough(m, trace[0])))
  {
    var cands := [primary] + fallback;
    var all := RunnableIndices(m, cands, |cands|);
    RunnableIndicesMeaning(m, cands, |cands|);
    assert Runnable(m, primary) <==> 0 in all;
    assert forall x: nat :: x in all ==> x < |cands|;
    if Runnable(m, primary) { FirstCallIsTheFirstCandidate(m, up, cands, req, trace); }
    FallbackIsRunnableIff(m, primary, fallback);
    if k: nat :| k < |trace| && trace[k].index > 0 { assert all[k] in all; }
    if i: nat :| 0 < i && i in all { LaterIsCalled(m, up, cands, req, trace, i); }
  }

  lemma FallbackIsRunnableIff(m: Manager, primary: RouteDecision, fallback: seq<RouteDecision>)
    ensures var cands := [primary] + fallback;
            (exists d :: d in fallback && Runnable(m, d)) <==>
            exists i: nat :: 0 < i && i in RunnableIndices(m, cands, |cands|)
  {
    var cands := [primary] + fallback;
    RunnableIndicesMeaning(m, cands, |cands|);
    if d :| d in fallback && Runnable(m, d) {
      var i :| 0 <= i < |fallback| && fallback[i] == d;
      assert cands[i + 1] == d;
      assert (i + 1) in RunnableIndices(m, cands, |cands|);
    }
    if i: nat :| 0 < i && i in RunnableIndices(m, cands, |cands|) { assert cands[i] == fallback[i - 1]; }
  }

  /** A runnable candidate after the first is reached, or some such is, unless the primary's call ends the execution. */
  lemma LaterIsCalled(m: Manager, up: Upstream, cands: seq<RouteDecision>, req: AIRequest, trace: seq<Invocation>,
                      i: nat)
    requires IsExecution(m, up, cands, req, trace) && 0 < i && i in RunnableIndices(m, cands, |cands|)
    ensures cands != []
    ensures (Runnable(m, cands[0]) ==> trace != [] && FallsThrough(m, trace[0])) ==>
              exists k :: 0 <= k < |trace| && trace[k].index > 0
  {
    var all := RunnableIndices(m, cands, |cands|);
    RunnableIndicesMeaning(m, cands, |cands|);
    var p :| 0 <= p < |all| && all[p] == i;
    if Runnable(m, cands[0]) {
      if trace != [] && FallsThrough(m, trace[0]) {
        FirstCallIsTheFirstCandidate(m, up, cands, req, trace);
        assert |all| > 1 && |trace| > 1;
        assert trace[1].index > trace[0].index;
      }
    } else {
      assert trace != [];
      assert all[0] in all;
      assert trace[0].index > 0;
    }
  }

  /** The error a failed execution reports is that of its last call, unless a candidate skipped later hides it. Exactly
      when it is the last call's: when that call did not fall through, or the last candidate is not one that is skipped.
      */
  lemma FailureErrorIff(m: Manager, up: Upstream, req: AIRequest, primary: RouteDecision, fallback: seq<RouteDecision>,
                        trace: seq<Invocation>)
    requires IsExecution(m, up, [primary] + fallback, req, trace) && trace != []
    requires ResultOf(m, primary, fallback, trace).status == "failed"
    requires var cands := [primary] + fallback;
             trace[|trace| - 1].outcome.error != SkipError(m, cands[|cands| - 1])
    ensures var cands, last := [primary] + fallback, trace[|trace| - 1];
            ResultOf(m, primary, fallback, trace).error == Some(last.outcome.error) <==>
            !FallsThrough(m, last) || Runnable(m, cands[|cands| - 1])
  {}

  /** If the last candidate is not one that is skipped, a failure after a call is that of the last call. */
  lemma LastErrorIsReported(m: Manager, primary: RouteDecision, fallback: seq<RouteDecision>, trace: seq<Invocation>)
    requires trace != [] && ResultOf(m, primary, fallback, trace).error.Some?
    requires Runnable(m, ([primary] + fallback)[|fallback|])
    ensures trace[|trace| - 1].outcome.Err?
    ensures ResultOf(m, primary, fallback, trace).error == Some(trace[|trace| - 1].outcome.error)
  {}

  /** A fallback candidate that is never called counts as used: here the primary's error fires no rule. */
  lemma UncalledFallbackCountsAsUsed(m: Manager, up: Upstream, req: AIRequest, a: RouteDecision, b: RouteDecision)
    requires Runnable(m, a) && m.cfg.fallbackRules == []
    requires up(0, a.backendName, RequestFor(m, req, 0)).Err?
    ensures var trace := Trace(m, up, [a, b], req, 0, []);
            && IsExecution(m, up, [a] + [b], req, trace) && |trace| == 1 && trace[0].index == 0
            && ResultOf(m, a, [b], trace).status == "failed" && ResultOf(m, a, [b], trace).usedFallback
  {
    var trace := Trace(m, up, [a, b], req, 0, []);
    assert [a] + [b] == [a, b];
    TraceIsExecution(m, up, [a, b], req);
    FirstCallIsTheFirstCandidate(m, up, [a, b], req, trace);
    assert !FallsThrough(m, trace[0]);
  }

  /** A deadline error is hidden by a fallback candidate without an adapter: the primary's timeout fires the rule to it,
      it is skipped, and the error reported is that it has no adapter. */
  lemma SkippedFallbackHidesTheDeadline(m: Manager, up: Upstream, req: AIRequest, a: RouteDecision, b: RouteDecision)
    requires Runnable(m, a) && b.backendName !in m.adapters && m.cfg.fallbackEnabled
    requires FallbackRule(a.backendName, ["timeout"], b.backendName) in m.cfg.fallbackRules
    requires up(0, a.backendName, RequestFor(m, req, 0)) == Err(Fault(None, true, "deadline"))
    ensures var trace := Trace(m, up, [a, b], req, 0, []);
            && IsExecution(m, up, [a] + [b], req, trace)
            && |trace| == 1 && trace[0].outcome == Err(Fault(None, true, "deadline"))
            && ResultOf(m, a, [b], trace).error == Some(Fault(None, false, "adapter not found"))
  {
    var trace := Trace(m, up, [a, b], req, 0, []);
    assert [a] + [b] == [a, b];
    TraceIsExecution(m, up, [a, b], req);
    FirstCallIsTheFirstCandidate(m, up, [a, b], req, trace);
    assert "timeout" in FallbackRule(a.backendName, ["timeout"], b.backendName).on;
    assert FallsThrough(m, trace[0]);
    assert RunnableIndices(m, [a, b], 1) == RunnableIndices(m, [a, b], 2);
    assert |RunnableIndices(m, [a, b], 1)| <= 1 by { assert RunnableIndices(m, [a, b], 0) == []; }
    assert ([a] + [b])[|[a] + [b]| - 1] == b;
    assert "adapter" + " not found" == "adapter not found";
  }

  /** With stream fallback off no candidate after the first is ever asked to stream; every other field of the
      request reaches every candidate unchanged. */
  lemma FallbackNeverStreams(m: Manager, up: Upstream, cands: seq<RouteDecision>, req: AIRequest,
                             trace: seq<Invocation>, k: nat)
    requires IsExecution(m, up, cands, req, trace) && k < |trace|
    ensures trace[k].req.(options := req.options) == req && trace[k].req.options.maxTokens == req.options.maxTokens
    ensures !m.cfg.streamFallbackEnabled && trace[k].index > 0 ==> !trace[k].req.options.stream
    ensures m.cfg.streamFallbackEnabled || trace[k].index == 0 ==> trace[k].req == req
  {}

  /** Turning fallback off means at most one call; so does an execution without fallback candidates. */
  lemma WithoutFallbackOneCall(m: Manager, up: Upstream, cands: seq<RouteDecision>, req: AIRequest,
                               trace: seq<Invocation>)
    requires IsExecution(m, up, cands, req, trace) && (!m.cfg.fallbackEnabled || |cands| <= 1)
    ensures |trace| <= 1
  {
    RunnableIndicesMeaning(m, cands, |cands|);
    var all := RunnableIndices(m, cands, |cands|);
    assert |trace| > 1 ==> FallsThrough(m, trace[0]);
    assert |all| > 1 ==> all[0] in all && all[1] in all;
  }

  // ---- The fallback list ----

  /** The fallback decisions for a primary: its rules' targets in rule order, without unknown and unhealthy ones. */
  function FallbackList(c: Config, rules: seq<FallbackRule>, primary: string, health: Health): (r: seq<RouteDecision>)
    ensures forall d :: d in r ==> Selectable(c, health, d)
  {
    if rules == [] then []
    else
      var rest := FallbackList(c, rules[1..], primary, health);
      if rules[0].fromBackend != primary then rest
      else
        match BackendByName(c.backends, rules[0].fallbackTo)
        case None => rest
        case Some(b) =>
          if !BackendHealthOK(health, b.name) then rest
          else [RouteDecision(b.name, "fallback-from-" + primary, b.unit)] + rest
  }

  method BuildFallback(c: Config, primary: string, health: Health) returns (out: seq<RouteDecision>)
    ensures out == FallbackList(c, c.fallbackRules, primary, health)
  {
    out := [];
    for i := 0 to |c.fallbackRules|
      invariant out + FallbackList(c, c.fallbackRules[i..], primary, health)
             == FallbackList(c, c.fallbackRules, primary, health)
    {
      var rule := c.fallbackRules[i];
      assert c.fallbackRules[i..][1..] == c.fallbackRules[i + 1..];
      if rule.fromBackend != primary { continue; }
      var b := BackendByName(c.backends, rule.fallbackTo);
      if b.None? { continue; }
      if !BackendHealthOK(health, b.value.name) { continue; }
      out := out + [RouteDecision(b.value.name, "fallback-from-" + primary, b.value.unit)];
    }
  }

  /** The healthy targets of the primary's rules, in rule order, whatever the backend list says. */
  function RuleTargets(rules: seq<FallbackRule>, primary: string, health: Health): seq<string> {
    if rules == [] then []
    else
      (if rules[0].fromBackend == primary && BackendHealthOK(health, rules[0].fallbackTo)
       then [rules[0].fallbackTo] else [])
      + RuleTargets(rules[1..], primary, health)
  }

  function Names(ds: seq<RouteDecision>): seq<string> {
    seq(|ds|, i requires 0 <= i < |ds| => ds[i].backendName)
  }

  lemma {:induction false} FallbackListNames(c: Config, rules: seq<FallbackRule>, primary: string, health: Health)
    requires forall r :: r in rules ==> BackendByName(c.backends, r.fallbackTo).Some?
    ensures Names(FallbackList(c, rules, primary, health)) == RuleTargets(rules, primary, health)
  {
    if rules != [] {
      assert rules[0] in rules;
      FallbackListNames(c, rules[1..], primary, health);
      var rest := FallbackList(c, rules[1..], primary, health);
      var b := BackendByName(c.backends, rules[0].fallbackTo).value;
      var d := RouteDecision(b.name, "fallback-from-" + primary, b.unit);
      assert Names([d] + rest) == [b.name] + Names(rest);
    }
  }

  /** In an accepted configuration with trimmed names no rule is dropped for an unknown target: the fallback
      list is exactly the healthy targets of the primary's rules. */
  lemma ValidatedFallbackKeepsEveryRule(
    t: CharTable, fieldsOk: BackendConfig -> bool, c: Config, primary: string, health: Health)
    requires WellFormed(t, fieldsOk, c) && NamesTrimmed(t, c)
    ensures Names(FallbackList(c, c.fallbackRules, primary, health)) == RuleTargets(c.fallbackRules, primary, health)
  {
    ValidatedReferencesResolve(t, fieldsOk, c);
    FallbackListNames(c, c.fallbackRules, primary, health);
  }

  /** Exactly when no rule is ever dropped, for any primary and snapshot: when every target is stored under the name the
      rule uses. */
  lemma FallbackKeepsEveryRuleIff(c: Config)
    ensures (forall primary, health :: Names(FallbackList(c, c.fallbackRules, primary, health))
                                       == RuleTargets(c.fallbackRules, primary, health)) <==>
            (forall r :: r in c.fallbackRules ==> Resolves(c, r.fallbackTo))
  {
    if forall r :: r in c.fallbackRules ==> Resolves(c, r.fallbackTo) {
      forall primary, health ensures Names(FallbackList(c, c.fallbackRules, primary, health))
                                     == RuleTargets(c.fallbackRules, primary, health) {
        FallbackListNames(c, c.fallbackRules, primary, health);
      }
    } else {
      var r :| r in c.fallbackRules && !Resolves(c, r.fallbackTo);
      RuleTargetsHas(c.fallbackRules, r);
      var list := FallbackList(c, c.fallbackRules, r.fromBackend, map[]);
      forall i | 0 <= i < |list| ensures Names(list)[i] != r.fallbackTo {
        assert Selectable(c, map[], list[i]) by { assert list[i] in list; }
      }
      assert r.fallbackTo !in Names(list);
    }
  }

  /** Every rule is live: for each backend it names as its origin, its target is among the fallbacks while all are
      healthy. */
  ghost predicate RulesAreLive(t: CharTable, c: Config) {
    forall r, b :: r in c.fallbackRules && b in c.backends && TrimSpace(t, b.name) == r.fromBackend ==>
                     r.fallbackTo in Names(FallbackList(c, c.fallbackRules, b.name, map[]))
  }

  /** Exactly when every fallback rule of an accepted configuration is live: when both its ends are stored under the
      names the rule uses. */
  lemma RulesAreLiveIff(t: CharTable, fieldsOk: BackendConfig -> bool, c: Config)
    requires WellFormed(t, fieldsOk, c)
    ensures RulesAreLive(t, c) <==>
            forall r :: r in c.fallbackRules ==> Resolves(c, r.fromBackend) && Resolves(c, r.fallbackTo)
  {
    if RulesAreLive(t, c) {
      forall r | r in c.fallbackRules ensures Resolves(c, r.fromBackend) && Resolves(c, r.fallbackTo) {
        assert FallbackRuleOk(TrimmedBackendNames(t, c.backends), r);
        var b :| b in c.backends && TrimSpace(t, b.name) == r.fromBackend;
        ListedMeansResolved(t, fieldsOk, c, r, b);
      }
    }
    if forall r :: r in c.fallbackRules ==> Resolves(c, r.fromBackend) && Resolves(c, r.fallbackTo) {
      forall r, b | r in c.fallbackRules && b in c.backends && TrimSpace(t, b.name) == r.fromBackend
        ensures r.fallbackTo in Names(FallbackList(c, c.fallbackRules, b.name, map[]))
      {
        ResolvedOrigin(t, fieldsOk, c, b);
        FallbackListNames(c, c.fallbackRules, b.name, map[]);
        RuleTargetsHas(c.fallbackRules, r);
      }
    }
  }

  /** A backend whose trimmed name resolves is stored trimmed. */
  lemma ResolvedOrigin(t: CharTable, fieldsOk: BackendConfig -> bool, c: Config, b: BackendConfig)
    requires WellFormed(t, fieldsOk, c) && b in c.backends
    ensures Resolves(c, TrimSpace(t, b.name)) <==> TrimSpace(t, b.name) == b.name
  {
    var k :| 0 <= k < |c.backends| && c.backends[k] == b;
    ReferenceResolvesIffTrimmed(t, fieldsOk, c, k);
    TrimSpaceFixpoints(t, b.name);
  }

  lemma ListedMeansResolved(t: CharTable, fieldsOk: BackendConfig -> bool, c: Config, r: FallbackRule, b: BackendConfig)
    requires WellFormed(t, fieldsOk, c) && b in c.backends && TrimSpace(t, b.name) == r.fromBackend
    requires r.fallbackTo in Names(FallbackList(c, c.fallbackRules, b.name, map[]))
    ensures Resolves(c, r.fromBackend) && Resolves(c, r.fallbackTo)
  {
    var list := FallbackList(c, c.fallbackRules, b.name, map[]);
    var i :| 0 <= i < |list| && Names(list)[i] == r.fallbackTo;
    assert Selectable(c, map[], list[i]) by { assert list[i] in list; }
    var origin := ListedHasARule(c, c.fallbackRules, b.name, map[]);
    assert FallbackRuleOk(TrimmedBackendNames(t, c.backends), origin);
    var x :| x in c.backends && TrimSpace(t, x.name) == origin.fromBackend;
    TrimSpaceFixpoints(t, x.name);
    TrimSpaceFixpoints(t, b.name);
    ResolvedOrigin(t, fieldsOk, c, b);
  }

  lemma {:induction false} ListedHasARule(c: Config, rules: seq<FallbackRule>, primary: string, health: Health)
    returns (r: FallbackRule)
    requires FallbackList(c, rules, primary, health) != []
    ensures r in rules && r.fromBackend == primary
  {
    if rules[0].fromBackend == primary { return rules[0]; }
    r := ListedHasARule(c, rules[1..], primary, health);
  }

  /** A rule can be dead although its target resolves. This configuration is accepted; the backend the rule starts from
      is stored untrimmed; and no configured backend has a fallback, nor does any of its errors fire the rule. */
  lemma UntrimmedOriginKillsTheRule(t: CharTable, up: Upstream, name: string, health: Health, e: Fault)
    returns (c: Config)
    requires t.Valid() && t.isSpace(' ') && name in {" a", "b"}
    ensures WellFormed(t, b => true, c) && c.fallbackRules == [FallbackRule("a", ["timeout"], "b")]
    ensures (set b | b in c.backends :: b.name) == {" a", "b"} && Resolves(c, "b")
    ensures FallbackList(c, c.fallbackRules, name, health) == []
    ensures !ShouldFallback(Manager(c, {" a", "b"}, t), name, e)
  {
    var a, b := BackendConfig(" a", "mock", 1.0, [], 0), BackendConfig("b", "mock", 1.0, [], 0);
    var rule := FallbackRule("a", ["timeout"], "b");
    c := Config([a, b], [], "b", [], true, false, [rule], 0, "", false, [], NO_TIMEOUTS);
    SpaceThenA(t);
    assert TrimSpace(t, "b") == "b" by { TrimSpaceFixpoints(t, "b"); }
    assert a in c.backends && b in c.backends;
    assert BackendKeys(t, c.backends) == ["a", "b"];
    assert "a" in TrimmedBackendNames(t, c.backends) && "b" in TrimmedBackendNames(t, c.backends);
    assert ToLower(t, TrimSpace(t, "")) == "";
    assert c.fallbackRules[1..] == [];
    assert BackendByName(c.backends[1..], "b") == Some(b);
  }

  lemma SpaceThenA(t: CharTable)
    requires t.Valid() && t.isSpace(' ')
    ensures TrimSpace(t, " a") == "a"
  {
    assert " a"[1..] == "a";
    assert TrimLeft(t, "a") == "a";
  }

  lemma {:induction false} RuleTargetsHas(rules: seq<FallbackRule>, r: FallbackRule)
    requires r in rules
    ensures r.fallbackTo in RuleTargets(rules, r.fromBackend, map[])
  {
    if rules[0] != r { RuleTargetsHas(rules[1..], r); }
  }

  /** The rule that fires only decides whether to move on. Here a 5xx error fires the rule a -> c, yet the
      candidate tried next is b, the first entry of the list. */
  lemma FiringRuleDoesNotPickTheTarget(t: CharTable, up: Upstream, req: AIRequest)
    requires up(0, "a", req) == Err(Fault(Some("upstream_5xx"), false, "")) && !req.options.stream
    ensures var bs := [BackendConfig("a", "mock", 1.0, [], 0), BackendConfig("b", "mock", 1.0, [], 0),
                       BackendConfig("c", "mock", 1.0, [], 0)];
            var rules := [FallbackRule("a", ["timeout"], "b"), FallbackRule("a", ["upstream_5xx"], "c")];
            var c := Config(bs, [], "a", [], true, false, rules, 0, "", false, [], NO_TIMEOUTS);
            var fb := FallbackList(c, rules, "a", map[]);
            var calls := Calls(Manager(c, {"a", "b", "c"}, t), up, req, RouteDecision("a", "", 1.0), fb, NO_OPTIONS);
            |calls| >= 2 && calls[1].backend == "b"
  {
    var bs := [BackendConfig("a", "mock", 1.0, [], 0), BackendConfig("b", "mock", 1.0, [], 0),
               BackendConfig("c", "mock", 1.0, [], 0)];
    var rules := [FallbackRule("a", ["timeout"], "b"), FallbackRule("a", ["upstream_5xx"], "c")];
    var m := Manager(Config(bs, [], "a", [], true, false, rules, 0, "", false, [], NO_TIMEOUTS), {"a", "b", "c"}, t);
    var fb := FallbackList(m.cfg, rules, "a", map[]);
    assert BackendByName(bs[1..], "b") == Some(bs[1]);
    assert fb[0] == RouteDecision("b", "fallback-from-a", 1.0);
    var cands := [RouteDecision("a", "", 1.0)] + fb;
    assert cands[0] == RouteDecision("a", "", 1.0) && cands[1] == fb[0];
    assert ShouldFallback(m, "a", up(0, "a", req).error) by {
      assert rules[1] in m.cfg.fallbackRules && "upstream_5xx" in rules[1].on;
    }
    SecondCandidateIsNext(m, up, cands, req);
    assert TrimSpace(t, "") == "";
  }

  lemma FirstCallIsTheFirstCandidate(m: Manager, up: Upstream, cands: seq<RouteDecision>, req: AIRequest,
                                     trace: seq<Invocation>)
    requires IsExecution(m, up, cands, req, trace) && cands != [] && Runnable(m, cands[0])
    ensures trace != [] && trace[0].index == 0
  {
    RunnablePrefix(m, cands, 1, |cands|);
    assert RunnableIndices(m, cands, 0) == [];
    assert RunnableIndices(m, cands, 1) == [0];
  }

  /** After a first failure that fires any rule of its backend, the second candidate is called. */
  lemma SecondCandidateIsNext(m: Manager, up: Upstream, cands: seq<RouteDecision>, req: AIRequest)
    requires |cands| >= 2 && Runnable(m, cands[0]) && Runnable(m, cands[1])
    requires FallsThrough(m, Invocation(0, cands[0].backendName, RequestFor(m, req, 0),
                                        up(0, cands[0].backendName, RequestFor(m, req, 0))))
    ensures var calls := Trace(m, up, cands, req, 0, []);
            |calls| >= 2 && calls[1].backend == cands[1].backendName
  {
    var calls := Trace(m, up, cands, req, 0, []);
    TraceIsExecution(m, up, cands, req);
    FirstCallIsTheFirstCandidate(m, up, cands, req, calls);
    NextCandidateIsCalled(m, up, cands, req, calls, 0);
    assert NextRunnable(m, cands, 0, 1);
  }

  /** Candidate `j` is the first runnable one after `i`. */
  ghost predicate NextRunnable(m: Manager, cands: seq<RouteDecision>, i: nat, j: nat) {
    i < j < |cands| && Runnable(m, cands[j]) && forall x :: i < x < j ==> !Runnable(m, cands[x])
  }

  /** After any call that fires a rule of its backend the next runnable candidate is called, and if there is none the
      execution ends. So the target of a rule is called next exactly when that candidate bears its name. */
  lemma NextCandidateIsCalled(m: Manager, up: Upstream, cands: seq<RouteDecision>, req: AIRequest,
                              trace: seq<Invocation>, k: nat)
    requires IsExecution(m, up, cands, req, trace) && k < |trace| && FallsThrough(m, trace[k])
    ensures forall j: nat :: NextRunnable(m, cands, trace[k].index, j) ==> k + 1 < |trace| && trace[k + 1].index == j
    ensures k + 1 < |trace| <==> exists j: nat :: NextRunnable(m, cands, trace[k].index, j)
    ensures forall r :: r in m.cfg.fallbackRules ==>
                          ((k + 1 < |trace| && trace[k + 1].backend == r.fallbackTo) <==>
                           exists j: nat ::
                             NextRunnable(m, cands, trace[k].index, j) && cands[j].backendName == r.fallbackTo)
  {
    var all := RunnableIndices(m, cands, |cands|);
    forall j: nat ensures NextRunnable(m, cands, trace[k].index, j) <==> k + 1 < |all| && all[k + 1] == j {
      NextRunnableIff(m, cands, k, j);
    }
    if k + 1 < |all| { assert NextRunnable(m, cands, trace[k].index, all[k + 1]); }
  }

  /** The next runnable candidate is the next of the runnable indices. */
  lemma NextRunnableIff(m: Manager, cands: seq<RouteDecision>, k: nat, j: nat)
    requires k < |RunnableIndices(m, cands, |cands|)|
    ensures var all := RunnableIndices(m, cands, |cands|);
            NextRunnable(m, cands, all[k], j) <==> k + 1 < |all| && all[k + 1] == j
  {
    var all := RunnableIndices(m, cands, |cands|);
    RunnableIndicesMeaning(m, cands, |cands|);
    if k + 1 < |all| && all[k + 1] == j {
      assert j in all;
      forall x | all[k] < x < j ensures !Runnable(m, cands[x]) { NoneBetween(m, cands, k, x); }
    }
    if NextRunnable(m, cands, all[k], j) {
      assert j in all;
      var p :| 0 <= p < |all| && all[p] == j;
      assert p > k;
      assert all[k + 1] in all;
    }
  }

  /** No runnable candidate lies between two neighbouring runnable ones. */
  lemma NoneBetween(m: Manager, cands: seq<RouteDecision>, k: nat, x: nat)
    requires var all := RunnableIndices(m, cands, |cands|); k + 1 < |all| && all[k] < x < all[k + 1]
    ensures x < |cands| && !Runnable(m, cands[x])
  {
    var all := RunnableIndices(m, cands, |cands|);
    RunnableIndicesMeaning(m, cands, |cands|);
    assert all[k + 1] in all;
    forall p | 0 <= p < |all| ensures all[p] != x {}
  }

  // ---- What fires a rule, and what the options do ----

  /** The fallback switch is on and one of the backend's rules lists trigger `k`. */
  ghost predicate Lists(m: Manager, from: string, k: string) {
    m.cfg.fallbackEnabled && exists r :: r in m.cfg.fallbackRules && r.fromBackend == from && k in r.on
  }

  /** Which trigger a failure fires. An upstream error of one of the four kinds fires its own, of any other kind
      "backend_error". An error without a kind fires "timeout" if it is a deadline, otherwise "backend_unhealthy" if its
      lowercased message contains "unhealthy", and otherwise "backend_error". */
  lemma FiredTrigger(m: Manager, from: string, e: Fault)
    ensures forall k |
              k in {"timeout", "backend_unhealthy", "upstream_4xx", "upstream_5xx"} && e.upstreamKind == Some(k)
              :: ShouldFallback(m, from, e) <==> Lists(m, from, k)
    ensures e.upstreamKind.Some? &&
            e.upstreamKind.value !in {"timeout", "backend_unhealthy", "upstream_4xx", "upstream_5xx"} ==>
              (ShouldFallback(m, from, e) <==> Lists(m, from, "backend_error"))
    ensures e.upstreamKind.None? && e.deadline ==> (ShouldFallback(m, from, e) <==> Lists(m, from, "timeout"))
    ensures e.upstreamKind.None? && !e.deadline ==>
              (ShouldFallback(m, from, e) <==>
               Lists(m, from, if exists i: nat :: OccursAt(ToLower(m.table, e.msg), "unhealthy", i)
                              then "backend_unhealthy" else "backend_error"))
  {
    ContainsIff(ToLower(m.table, e.msg), "unhealthy");
  }

  /** The triggers validation accepts are exactly those some failure fires: in an accepted configuration every rule
      lists a trigger, and each trigger it lists can fire it while fallback is on. */
  lemma AcceptedTriggersFire(fieldsOk: BackendConfig -> bool, m: Manager, r: FallbackRule)
    requires WellFormed(m.table, fieldsOk, m.cfg) && r in m.cfg.fallbackRules && m.cfg.fallbackEnabled
    ensures r.on != []
    ensures forall x :: x in r.on ==>
                          exists e :: ClassifyError(m.table, e) == x && ShouldFallback(m, r.fromBackend, e)
    ensures forall e :: ClassifyError(m.table, e) in TRIGGERS
  {
    assert FallbackRuleOk(TrimmedBackendNames(m.table, m.cfg.backends), r);
    forall x | x in r.on ensures exists e :: ClassifyError(m.table, e) == x && ShouldFallback(m, r.fromBackend, e) {
      var e := Fault(Some(x), false, "");
      assert ClassifyError(m.table, e) == x;
      assert ShouldFallback(m, r.fromBackend, e);
    }
  }

  /** A forced backend takes the place of the primary and is called if it can be; without fallback nothing else is.
      Unless a backend is forced the options are ignored. */
  lemma ForcedPrimary(m: Manager, up: Upstream, req: AIRequest, primary: RouteDecision, fallback: seq<RouteDecision>,
                      opts: ExecOptions)
    ensures var name := TrimSpace(m.table, opts.forcePrimaryBackend);
            var calls := Calls(m, up, req, primary, fallback, opts);
            && (name == "" ==> calls == Trace(m, up, [primary] + fallback, req, 0, []))
            && (name != "" ==>
                  && (forall v :: v in calls ==>
                        if v.index == 0 then v.backend == name
                        else !opts.noFallback && v.index <= |fallback| &&
                             v.backend == fallback[v.index - 1].backendName)
                  && (opts.noFallback ==> |calls| <= 1)
                  && (name in m.adapters && Resolves(m.cfg, name) ==> calls != [] && calls[0].backend == name))
  {
    var name := TrimSpace(m.table, opts.forcePrimaryBackend);
    var (p, f) := Candidates(m, primary, fallback, opts);
    var cands := [p] + f;
    var calls := Calls(m, up, req, primary, fallback, opts);
    TraceIsExecution(m, up, cands, req);
    if name != "" {
      if opts.noFallback { WithoutFallbackOneCall(m, up, cands, req, calls); }
      if Runnable(m, cands[0]) { FirstCallIsTheFirstCandidate(m, up, cands, req, calls); }
    }
  }

  /** An execution without a call: no candidate could be called, and the error says what the last one lacks. */
  lemma NothingCalled(m: Manager, up: Upstream, req: AIRequest, primary: RouteDecision, fallback: seq<RouteDecision>)
    requires IsExecution(m, up, [primary] + fallback, req, [])
    ensures forall d :: d == primary || d in fallback ==>
                          d.backendName !in m.adapters || !Resolves(m.cfg, d.backendName)
    ensures var last := if fallback == [] then primary else fallback[|fallback| - 1];
            ResultOf(m, primary, fallback, []).error
            == Some(Fault(None, false, if last.backendName in m.adapters then "backend config not found"
                                       else "adapter not found"))
  {
    var cands := [primary] + fallback;
    RunnableIndicesMeaning(m, cands, |cands|);
    forall d | d == primary || d in fallback ensures d.backendName !in m.adapters || !Resolves(m.cfg, d.backendName) {
      assert d in cands;
      var i :| 0 <= i < |cands| && cands[i] == d;
      assert i !in RunnableIndices(m, cands, |cands|);
      assert !Runnable(m, d);
    }
    assert "adapter" + " not found" == "adapter not found";
    assert "backend config" + " not found" == "backend config not found";
  }

  /** Every entry of the fallback list is the target of one of the primary's rules, at its unit cost and under a reason
      that names the primary. */
  lemma {:induction false} FallbackEntries(c: Config, rules: seq<FallbackRule>, primary: string, health: Health)
    ensures forall d :: d in FallbackList(c, rules, primary, health) ==>
                          && d.reason == "fallback-from-" + primary && DecisionFor(c, d.backendName, d)
                          && exists r :: IsTargetOf(rules, primary, r, d)
  {
    if rules != [] {
      FallbackEntries(c, rules[1..], primary, health);
      assert forall r, d :: IsTargetOf(rules[1..], primary, r, d) ==> IsTargetOf(rules, primary, r, d);
      var list := FallbackList(c, rules, primary, health);
      if list != FallbackList(c, rules[1..], primary, health) {
        assert IsTargetOf(rules, primary, rules[0], list[0]);
      }
    }
  }

  /** Every target of the primary's rules that resolves and is not marked unhealthy is on the list. */
  lemma {:induction false} HealthyTargetsAreListed(
    c: Config, rules: seq<FallbackRule>, primary: string, health: Health, r: FallbackRule)
    requires r in rules && r.fromBackend == primary && Resolves(c, r.fallbackTo)
    requires r.fallbackTo in health ==> health[r.fallbackTo]
    ensures exists d :: d in FallbackList(c, rules, primary, health) && d.backendName == r.fallbackTo
  {
    var list := FallbackList(c, rules, primary, health);
    if r == rules[0] {
      assert list[0] in list;
    } else {
      HealthyTargetsAreListed(c, rules[1..], primary, health, r);
      var d :| d in FallbackList(c, rules[1..], primary, health) && d.backendName == r.fallbackTo;
      assert d in list;
    }
  }

  predicate IsTargetOf(rules: seq<FallbackRule>, primary: string, r: FallbackRule, d: RouteDecision) {
    r in rules && r.fromBackend == primary && r.fallbackTo == d.backendName
  }
}
