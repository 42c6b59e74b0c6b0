/** The timeout-spike signal against the full history of timeouts (internal/server). Times are nanoseconds. */
module TimeoutSpike {
  import opened Types

  const MINUTE := 60_000_000_000
  const THRESHOLD := 3

  /** The counter and the start of its window; `None` is the zero time, longer ago than any minute. */
  datatype Window = Window(start: Option<int>, count: nat)

  const NO_WINDOW := Window(None, 0)

  predicate Stale(w: Window, now: int) {
    w.start.None? || now - w.start.value > MINUTE
  }

  function Record(w: Window, now: int): Window {
    if Stale(w, now) then Window(Some(now), 1) else w.(count := w.count + 1)
  }

  predicate Active(w: Window, now: int) {
    !Stale(w, now) && w.count >= THRESHOLD
  }

  class SpikeSignal {
    var timeoutSpikeWin: Option<int>
    var timeoutSpikeCnt: nat

    ghost function State(): Window reads this { Window(timeoutSpikeWin, timeoutSpikeCnt) }

    constructor ()
      ensures State() == NO_WINDOW
    {
      timeoutSpikeWin, timeoutSpikeCnt := None, 0;
    }

    method RecordTimeoutSpike(now: int)
      modifies this
      ensures State() == Record(old(State()), now)
      ensures if old(timeoutSpikeWin).None? || now - old(timeoutSpikeWin).value > 60_000_000_000
              then State() == Window(Some(now), 1)
              else State() == Window(old(timeoutSpikeWin), old(timeoutSpikeCnt) + 1)
    {
      if timeoutSpikeWin.None? || now - timeoutSpikeWin.value > MINUTE {
        timeoutSpikeWin := Some(now);
        timeoutSpikeCnt := 0;
      }
      timeoutSpikeCnt := timeoutSpikeCnt + 1;
    }

    method TimeoutSpikeActive(now: int) returns (active: bool)
      ensures active == Active(State(), now)
      ensures active <==> timeoutSpikeWin.Some? && now - timeoutSpikeWin.value <= 60_000_000_000 && timeoutSpikeCnt >= 3
    {
      if timeoutSpikeWin.None? || now - timeoutSpikeWin.value > MINUTE { return false; }
      return timeoutSpikeCnt >= THRESHOLD;
    }

    /** Only timeouts count: a deadline error or an upstream error of kind timeout. */
    method NoteTimeoutForScaling(err: Option<Fault>, now: int)
      modifies this
      ensures State() == if err.Some? && (err.value.deadline || err.value.upstreamKind == Some("timeout"))
                         then Record(old(State()), now) else old(State())
    {
      if err.None? { return; }
      if err.value.deadline {
        RecordTimeoutSpike(now);
        return;
      }
      if err.value.upstreamKind == Some("timeout") { RecordTimeoutSpike(now); }
    }
  }

  // ---- History ----

  /** The window after recording the timeouts at times `ts`, in order. */
  function After(ts: seq<int>, n: nat): Window
    requires n <= |ts|
  {
    if n == 0 then NO_WINDOW else Record(After(ts, n - 1), ts[n - 1])
  }

  ghost predicate Monotone(ts: seq<int>) {
    forall i, j :: 0 <= i <= j < |ts| ==> ts[i] <= ts[j]
  }

  /** How many of the first `n` timeouts fall into `lo..hi`, both ends included. */
  function InInterval(ts: seq<int>, n: nat, lo: int, hi: int): nat
    requires n <= |ts|
  {
    if n == 0 then 0 else InInterval(ts, n - 1, lo, hi) + if lo <= ts[n - 1] <= hi then 1 else 0
  }

  /** The counter is exactly the number of timeouts since the window opened, the last of them recorded inside it. */
  lemma {:induction false} CounterCountsTheWindow(ts: seq<int>, n: nat, now: int)
    requires Monotone(ts) && n <= |ts| && (n > 0 ==> ts[n - 1] <= now)
    ensures var w := After(ts, n);
            && (w.start.None? <==> n == 0)
            && (n == 0 ==> w.count == 0)
            && (n > 0 ==> w.start.value <= ts[n - 1] <= w.start.value + MINUTE)
            && (n > 0 ==> w.count >= 1 && InInterval(ts, n, w.start.value, now) >= w.count)
  {
    if n > 1 {
      CounterCountsTheWindow(ts, n - 1, ts[n - 1]);
      var w := After(ts, n - 1);
      WidenInterval(ts, n - 1, w.start.value, ts[n - 1], w.start.value, now);
    }
  }

  lemma {:induction false} WidenInterval(ts: seq<int>, n: nat, lo: int, hi: int, lo': int, hi': int)
    requires n <= |ts| && lo' <= lo && hi <= hi'
    ensures InInterval(ts, n, lo, hi) <= InInterval(ts, n, lo', hi')
  {
    if n > 0 { WidenInterval(ts, n - 1, lo, hi, lo', hi'); }
  }

  /** No false alarm: whenever the signal is active, at least three timeouts really happened in the last minute. */
  lemma ActiveMeansThreeInTheLastMinute(ts: seq<int>, n: nat, now: int)
    requires Monotone(ts) && n <= |ts| && (n > 0 ==> ts[n - 1] <= now) && Active(After(ts, n), now)
    ensures InInterval(ts, n, now - MINUTE, now) >= THRESHOLD
  {
    CounterCountsTheWindow(ts, n, now);
    WidenInterval(ts, n, After(ts, n).start.value, now, now - MINUTE, now);
  }

  /** The signal is never active, at any time from the first timeout on. */
  ghost predicate NeverActive(ts: seq<int>) {
    forall k :: 0 < k <= |ts| ==> !Active(After(ts, k), ts[k - 1])
  }

  /** In a quiet run, the timeouts of `lo..lo + MINUTE` among the first `n`: those of the current window, without
      its opening one if that came before `lo`; plus at most one of the window before if the current one opened
      inside the interval. */
  lemma {:induction false} QuietInterval(ts: seq<int>, n: nat, lo: int)
    requires Monotone(ts) && NeverActive(ts) && n <= |ts| && (n > 0 ==> ts[n - 1] <= lo + MINUTE)
    ensures var w := After(ts, n);
            && w.count <= 2
            && InInterval(ts, n, lo, lo + MINUTE) <=
               (if w.start.None? then 0 else if w.start.value < lo then w.count - 1 else 1 + w.count)
  {
    if n > 0 {
      QuietInterval(ts, n - 1, lo);
      CounterCountsTheWindow(ts, n - 1, ts[n - 1]);
      CounterCountsTheWindow(ts, n, ts[n - 1]);
      assert !Active(After(ts, n), ts[n - 1]);
      if ts[n - 1] < lo { NoneBefore(ts, n, lo, lo + MINUTE); }
    }
  }

  lemma {:induction false} NoneBefore(ts: seq<int>, n: nat, lo: int, hi: int)
    requires Monotone(ts) && n <= |ts| && (n > 0 ==> ts[n - 1] < lo)
    ensures InInterval(ts, n, lo, hi) == 0
  {
    if n > 1 { NoneBefore(ts, n - 1, lo, hi); }
  }

  lemma {:induction false} NoneAfter(ts: seq<int>, n: nat, m: nat, lo: int, hi: int)
    requires Monotone(ts) && n <= m <= |ts| && (n < |ts| ==> ts[n] > hi)
    ensures InInterval(ts, m, lo, hi) == InInterval(ts, n, lo, hi)
    decreases m
  {
    if n < m { NoneAfter(ts, n, m - 1, lo, hi); }
  }

  /** Bounded miss: if the signal is never active throughout a run, no interval of one minute contains more
      than three timeouts. */
  lemma QuietRunsHaveAtMostThreePerMinute(ts: seq<int>, lo: int)
    requires Monotone(ts) && NeverActive(ts)
    ensures InInterval(ts, |ts|, lo, lo + MINUTE) <= 3
  {
    var n := FirstAfter(ts, lo + MINUTE);
    QuietInterval(ts, n, lo);
    NoneAfter(ts, n, |ts|, lo, lo + MINUTE);
  }

  /** The index of the first timeout later than `hi`. */
  function FirstAfter(ts: seq<int>, hi: int): (n: nat)
    requires Monotone(ts)
    ensures n <= |ts| && (n > 0 ==> ts[n - 1] <= hi) && (n < |ts| ==> ts[n] > hi)
  {
    if ts == [] then 0
    else if ts[0] > hi then 0
    else 1 + FirstAfter(ts[1..], hi)
  }

  /** Three is reached, so three timeouts in the last minute do not always raise the signal: the window tumbles
      and does not slide. */
  lemma ThreeTimeoutsCanGoUnnoticed()
    ensures var ts := [0, MINUTE - 2, MINUTE + 1, MINUTE + 2];
            Monotone(ts) && NeverActive(ts) && InInterval(ts, 4, MINUTE - 2, 2 * MINUTE - 2) == THRESHOLD
  {
    var ts := [0, MINUTE - 2, MINUTE + 1, MINUTE + 2];
    assert After(ts, 0) == NO_WINDOW;
    assert After(ts, 1) == Window(Some(0), 1);
    assert After(ts, 2) == Window(Some(0), 2);
    assert After(ts, 3) == Window(Some(MINUTE + 1), 1);
    assert After(ts, 4) == Window(Some(MINUTE + 1), 2);
    var lo, hi := MINUTE - 2, 2 * MINUTE - 2;
    assert InInterval(ts, 0, lo, hi) == 0;
    assert InInterval(ts, 1, lo, hi) == 0;
    assert InInterval(ts, 2, lo, hi) == 1;
    assert InInterval(ts, 3, lo, hi) == 2;
  }

  /** The window opened at the timeout `count` places from the end, and the one before it is strictly earlier. */
  lemma {:induction false} WindowPosition(ts: seq<int>, n: nat)
    requires Monotone(ts) && 0 < n <= |ts|
    ensures var w := After(ts, n);
            && w.start.Some? && 0 < w.count <= n && ts[n - w.count] == w.start.value
            && (w.count < n ==> ts[n - w.count - 1] < w.start.value)
  {
    if n > 1 {
      WindowPosition(ts, n - 1);
      CounterCountsTheWindow(ts, n - 1, ts[n - 1]);
    }
  }

  lemma {:induction false} AtLeastIff(ts: seq<int>, n: nat, lo: int, hi: int, k: nat)
    requires Monotone(ts) && n <= |ts| && (n > 0 ==> ts[n - 1] <= hi)
    ensures InInterval(ts, n, lo, hi) >= k <==> k == 0 || (k <= n && ts[n - k] >= lo)
    decreases n
  {
    if n > 0 && k > 0 {
      if ts[n - 1] < lo { NoneBefore(ts, n, lo, hi); } else { AtLeastIff(ts, n - 1, lo, hi, k - 1); }
    }
  }

  /** Exactly when the tumbling window meets the rolling rule "three timeouts in the last minute": they disagree, the
      signal staying off, exactly when the third-last timeout lies in the last minute but the window opened before
      that minute or after that timeout. */
  lemma RollingRuleIff(ts: seq<int>, n: nat, now: int)
    requires Monotone(ts) && n <= |ts| && (n > 0 ==> ts[n - 1] <= now)
    ensures var w := After(ts, n);
            (Active(w, now) <==> InInterval(ts, n, now - MINUTE, now) >= THRESHOLD) <==>
            !(n >= 3 && ts[n - 3] >= now - MINUTE && !(now - MINUTE <= w.start.value <= ts[n - 3]))
  {
    AtLeastIff(ts, n, now - MINUTE, now, THRESHOLD);
    if n > 0 {
      WindowPosition(ts, n);
      var w := After(ts, n);
      if n >= 3 { assert w.count >= 3 <==> w.start.value <= ts[n - 3]; }
    }
  }
}
