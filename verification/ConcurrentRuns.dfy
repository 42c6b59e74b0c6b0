/** What holds of concurrent runs, in every interleaving. */
module ConcurrentRuns {
  import opened Types
  import opened Router
  import opened Ledger
  import opened Pipeline
  import opened Serving
  import opened Interleaving
  import opened Replay
  import opened EndToEnd
  import Policy
  import TimeoutSpike

  /** What a run leaves in the ledger, as if it had been alone: the trace and the row of its own stop, for the limiter
      its policy check found and the count its winning swap replaced; the trace follows the plan, and the row went once
      from running to its final status. */
  ghost predicate OwnResult(p: Setup, id: string, env: Env, found: int, stop: Stop, depth: int, row: RequestRow,
                            steps: seq<StepRow>, log: seq<string>)
    requires id in p.jobs
  {
    var job := p.jobs[id];
    && EnvOk(p, id, env) && stop == p.StopFor(id, env, found) && Fits(stop)
    && steps == StepsOf(HooksOf(env), id, stop) && FollowsPlan(id, stop, steps)
    && row == RowAfter(job.traceID, id, job.req, stop, DegradesAt(p.Mode(), found), depth)
    && log == ["running", FinalStatus(stop)]
  }

  function DepthOf(depth: Option<int>): int {
    if depth.Some? then depth.value else 0
  }

  lemma EndIsOwn(p: Setup, id: string, env: Env, found: int, stop: Stop, depth: Option<int>, l: Local)
    requires id in p.jobs && EndOk(p, id, env, found, stop, depth, l)
    requires EnvOk(p, id, env) && stop == p.StopFor(id, env, found)
    ensures l.row.Some? && l.steps.Some?
    ensures OwnResult(p, id, env, found, stop, DepthOf(depth), l.row.value, l.steps.value, l.log)
  {
    var job := p.jobs[id];
    RowAfterIsPatched(job.traceID, id, job.req, stop, DegradesAt(p.Mode(), found), DepthOf(depth));
    TraceFollowsThePlan(HooksOf(env), env.Mode(), found, job.traceID, id, job.req);
  }

  /** In every interleaving a run that has closed its row leaves in the ledger exactly what it would leave alone. */
  lemma RunsAreTheirOwn(p: Setup, s: State, id: string)
    requires Reached(p, s) && id in s.pcs && (s.pcs[id].Closed? || s.pcs[id].Finished?)
    ensures id in p.jobs && id in s.requests && id in s.steps
    ensures var pc := s.pcs[id];
            OwnResult(p, id, pc.env, pc.found, pc.stop, DepthOf(pc.depth),
                      s.requests[id], s.steps[id], LogOf(s.log, id))
  {
    ReachedPlace(p, s, id);
    var pc := s.pcs[id];
    EndIsOwn(p, id, pc.env, pc.found, pc.stop, pc.depth, LocalOf(s, id));
  }

  /** So every such run called only healthy backends, and its row replays as that of a run alone. */
  lemma RunsReplay(p: Setup, s: State, id: string, env': Env)
    requires Reached(p, s) && id in s.pcs && (s.pcs[id].Closed? || s.pcs[id].Finished?)
    ensures id in p.jobs && id in s.requests
    ensures OwnReplay(s.pcs[id].env, env', s.pcs[id].found, p.jobs[id].req, s.pcs[id].stop, s.requests[id])
  {
    RunsAreTheirOwn(p, s, id);
    var pc := s.pcs[id];
    OwnRowReplays(p, id, pc.env, env', pc.found, pc.stop, DepthOf(pc.depth), s.requests[id]);
  }

  /** The run called only healthy backends, exact replay of its row aims at its primary, and current replay reproduces
      it if it can be repeated. */
  ghost predicate OwnReplay(env: Env, env': Env, found: int, req: AIRequest, stop: Stop, row: RequestRow) {
    && CallsHealthy(env, stop)
    && (env'.table == env.table ==> ReplaysExactly(env', stop, ReplayExact(env', row)))
    && (env.table.Valid() && Repeatable(env, env', found, req) && stop.PastRouting() ==>
          ReplayCurrent(env', row) == Replayed(stop))
  }

  lemma OwnRowReplays(p: Setup, id: string, env: Env, env': Env, found: int, stop: Stop, depth: int, row: RequestRow)
    requires p.Valid() && id in p.jobs && EnvOk(p, id, env) && stop == p.StopFor(id, env, found)
    requires row == RowAfter(p.jobs[id].traceID, id, p.jobs[id].req, stop, DegradesAt(p.Mode(), found), depth)
    ensures OwnReplay(env, env', found, p.jobs[id].req, stop, row)
  {
    var job := p.jobs[id];
    RunLeaves(env, env', found, job.traceID, job.req);
    DepthIsNotReplayed(env', job.traceID, job.req, stop, DegradesAt(p.Mode(), found), depth, found + 1);
  }

  /** No replay looks at the queue depth a row records. */
  lemma DepthIsNotReplayed(env: Env, traceID: string, req: AIRequest, stop: Stop, degrade: bool, d: int, d': int)
    ensures var a := RowAfter(traceID, req.requestID, req, stop, degrade, d);
            var b := RowAfter(traceID, req.requestID, req, stop, degrade, d');
            ReplayExact(env, a) == ReplayExact(env, b) && ReplayCurrent(env, a) == ReplayCurrent(env, b)
  {
    var a := RowAfter(traceID, req.requestID, req, stop, degrade, d);
    var b := RowAfter(traceID, req.requestID, req, stop, degrade, d');
    AlikeReplayed(env, a, b);
  }

  lemma AlikeReplayed(env: Env, a: RequestRow, b: RequestRow)
    requires a.(policySnapshot := None) == b.(policySnapshot := None)
    requires a.policySnapshot.Some? <==> b.policySnapshot.Some?
    requires a.policySnapshot.Some? ==>
               a.policySnapshot.value.(queueDepth := 0) == b.policySnapshot.value.(queueDepth := 0)
    ensures ReplayExact(env, a) == ReplayExact(env, b) && ReplayCurrent(env, a) == ReplayCurrent(env, b)
  {
    assert Reconstruct(env.table, a) == Reconstruct(env.table, b);
    assert ExactBackend(env.table, a) == ExactBackend(env.table, b);
  }

  /** In every interleaving the counter is the number of requests between admission and release, within the limit in
      reject mode, and 0 when none is left; and a request that asks for a slot is judged by that number. */
  lemma CounterCountsTheRunning(p: Setup, s: State, id: string)
    requires Reached(p, s)
    ensures s.inflight == |Holders(s)| && (p.Mode().Reject? ==> |Holders(s)| <= p.Mode().limit)
    ensures (forall x :: x in s.pcs ==> s.pcs[x].Finished?) ==> s.inflight == 0
    ensures Enabled(p, s, Admit(id)) ==> Next(p, s, Admit(id)).pcs[id].found == |Holders(s)|
  {
    ReachedShared(p, s);
    if forall x :: x in s.pcs ==> s.pcs[x].Finished? { assert Holders(s) == {}; }
  }

  /** In every interleaving the limiter is what its calls so far make of it, in lock order and with the stamps read
      before; and policy allows a request exactly when it gets as far as the limiter and that call is admitted. */
  lemma LimiterDecides(p: Setup, s: State, id: string)
    requires Reached(p, s) && Enabled(p, s, Decide(id))
    ensures var s' := Next(p, s, Decide(id));
            var limits := Policy.LimitsOf(p.base.cfg);
            && s'.limiter == Policy.StateAfter(limits, s'.asked, |s'.asked|)
            && (Evaluated(s'.pcs[id].env, p.jobs[id].req).allowed <==>
                |s'.asked| > |s.asked| && Policy.Admitted(limits, s'.asked, |s.asked|))
  {
    ReachedShared(p, s);
    DecideCallsTheLimiter(p, s, id);
  }

  /** In every interleaving an active scaling signal means three timeouts of any runs in the last minute. */
  lemma SignalIsTrue(p: Setup, s: State)
    requires Reached(p, s) && TimeoutSpike.Active(s.window, s.now)
    ensures TimeoutSpike.InInterval(s.timeouts, |s.timeouts|, s.now - TimeoutSpike.MINUTE, s.now) >= 3
  {
    ReachedShared(p, s);
    TimeoutSpike.ActiveMeansThreeInTheLastMinute(s.timeouts, |s.timeouts|, s.now);
  }
}
