/** From a run of the server's orchestrator to the replay of what it left in the ledger. */
module EndToEnd {
  import opened Types
  import opened Router
  import opened Config
  import opened Ledger
  import opened Pipeline
  import opened Serving
  import opened Orchestration
  import opened Replay

  /** The orchestrator is wired to the server's policy, router, fallback builder and reliability manager. */
  ghost predicate Wired(o: Orchestrator, env: Env) {
    o.hooks == HooksOf(env) && o.slots.mode == env.Mode()
  }

  /** Every backend called is configured, has an adapter and is not marked unhealthy in the run's snapshot. */
  ghost predicate CallsHealthy(env: Env, s: Stop) {
    s.Executed() ==>
      forall k :: 0 <= k < |s.calls| ==>
                    var b := s.calls[k].backend;
                    BackendHealthOK(env.health, b) && BackendByName(env.cfg.backends, b).Some? && b in env.adapters
  }

  /** The theorems about stops, read off what a run leaves in the store. */
  lemma RunLeaves(env: Env, env': Env, inflight: int, traceID: string, req0: AIRequest)
    ensures var s := ServerStop(env, inflight, req0);
            var row := RowOfRun(env, inflight, traceID, req0);
            && Fits(s) && FollowsPlan(req0.requestID, s, StepsOf(HooksOf(env), req0.requestID, s))
            && row.status == FinalStatus(s) && CallsHealthy(env, s)
            && (Answer(HooksOf(env), s, DegradesAt(env.Mode(), inflight)).Success? <==> s.Completed?)
            && (env'.table == env.table ==> ReplaysExactly(env', s, ReplayExact(env', row)))
            && (env.table.Valid() && Repeatable(env, env', inflight, req0) && s.PastRouting() ==>
                  ReplayCurrent(env', row) == Replayed(s))
  {
    var s := ServerStop(env, inflight, req0);
    TraceFollowsThePlan(HooksOf(env), env.Mode(), inflight, traceID, req0.requestID, req0);
    if s.Executed() {
      forall k: nat | k < |s.calls|
        ensures var b := s.calls[k].backend;
                BackendHealthOK(env.health, b) && BackendByName(env.cfg.backends, b).Some? && b in env.adapters
      {
        InvokedBackendsAreHealthy(env, inflight, req0, k);
      }
    }
    if env'.table == env.table { ReplayExactFidelity(env, env', inflight, traceID, req0); }
    if env.table.Valid() && Repeatable(env, env', inflight, req0) && s.PastRouting() {
      ReplayCurrentFidelity(env, env', inflight, traceID, req0);
    }
  }

  /** What a run of `req0` that ended in `s` leaves in the store: its trace, a prefix of the plan, and its row. */
  ghost predicate Left(o: Orchestrator, env: Env, traceID: string, req0: AIRequest, s: Stop)
    reads o.store, o.slots
  {
    var id := req0.requestID;
    && o.store.Valid() && id in o.store.requests
    && o.store.requests[id] == RowOfRun(env, o.slots.inferInflight, traceID, req0)
    && FollowsPlan(id, s, o.store.steps[id])
  }

  /** One request runs through the orchestrator. The ledger then holds its trace and its row, created as running and
      ended once; everything else in the ledger and the slot counter are as before; and only healthy backends were
      called. */
  method RunRequest(o: Orchestrator, env: Env, traceID: string, req0: AIRequest, now: int)
    returns (res: RunResult, ghost s: Stop)
    requires Wired(o, env) && o.store.Valid() && req0.requestID !in o.store.requests
    modifies o.store, o.slots, o.spike
    ensures o.slots.inferInflight == old(o.slots.inferInflight)
    ensures s == ServerStop(env, o.slots.inferInflight, req0)
    ensures Left(o, env, traceID, req0, s) && CallsHealthy(env, s)
    ensures res.Success? <==> s.Completed?
    ensures o.store.requests == old(o.store.requests)[req0.requestID := o.store.requests[req0.requestID]]
    ensures o.store.steps == old(o.store.steps)[req0.requestID := o.store.steps[req0.requestID]]
    ensures o.store.statusLog == old(o.store.statusLog)
                                 + [(req0.requestID, "running"), (req0.requestID, FinalStatus(s))]
  {
    ghost var v := o.Created(req0.requestID);
    res, s := o.Run(traceID, req0.requestID, req0, now);
    RanMeansLeft(o, env, traceID, req0, s, v, now);
  }

  lemma RanMeansLeft(o: Orchestrator, env: Env, traceID: string, req0: AIRequest, s: Stop, v: View, now: int)
    requires Wired(o, env) && s == ServerStop(env, o.slots.inferInflight, req0)
    requires o.Ran(traceID, req0.requestID, req0, s, o.slots.inferInflight, v, now)
    ensures Left(o, env, traceID, req0, s) && CallsHealthy(env, s)
    ensures o.store.requests == v.requests[req0.requestID := o.store.requests[req0.requestID]]
    ensures o.store.steps == v.steps[req0.requestID := o.store.steps[req0.requestID]]
    ensures Answer(HooksOf(env), s, DegradesAt(env.Mode(), o.slots.inferInflight)).Success? <==> s.Completed?
  {
    RunLeaves(env, env, o.slots.inferInflight, traceID, req0);
  }

  /** The request is then replayed from the same store, possibly under another configuration: the replay reproduces the
      run. */
  method RunThenReplay(o: Orchestrator, env: Env, env': Env, traceID: string, req0: AIRequest, now: int, mode: Mode)
    returns (res: RunResult, out: Outcome, ghost s: Stop)
    requires Wired(o, env) && o.store.Valid() && req0.requestID !in o.store.requests
    modifies o.store, o.slots, o.spike
    ensures s == ServerStop(env, o.slots.inferInflight, req0)
    ensures Left(o, env, traceID, req0, s) && CallsHealthy(env, s) && (res.Success? <==> s.Completed?)
    ensures mode.Exact? && env'.table == env.table ==> ReplaysExactly(env', s, out)
    ensures mode.Current? && env.table.Valid() && s.PastRouting() ==>
              (Repeatable(env, env', o.slots.inferInflight, req0) ==> out == Replayed(s))
  {
    res, s := RunRequest(o, env, traceID, req0, now);
    RunLeaves(env, env', o.slots.inferInflight, traceID, req0);
    out := ReplayRow(env', o.store, req0.requestID, mode);
  }
}
