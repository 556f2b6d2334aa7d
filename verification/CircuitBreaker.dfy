/** The circuit breaker of the MCP client, related to the history of calls and reports. */
module CircuitBreaker {
  import opened Common

  datatype CircuitState = Closed | Open | HalfOpen

  /** What happened, with the clock reading where the breaker takes one. */
  datatype Op = Ask(at: int) | Succeeded | FailedAt(at: int)

  datatype Config = Config(coolDown: int, threshold: int, window: int)

  datatype Breaker = Breaker(state: CircuitState, failureCount: int, lastFailure: int, probe: bool)

  const NANOSECONDS := 1_000_000_000

  /** A breaker that has seen nothing; the zero time stands for "no failure". */
  const FRESH := Breaker(Closed, 0, ZERO_TIME, false)

  function Granted(cfg: Config, b: Breaker, now: int): bool {
    match b.state
    case Closed => true
    case Open => now - b.lastFailure >= cfg.coolDown
    case HalfOpen => !b.probe
  }

  function After(cfg: Config, b: Breaker, op: Op): Breaker {
    match op
    case Ask(now) =>
      if b.state == Closed || !Granted(cfg, b, now) then b else b.(state := HalfOpen, probe := true)
    case Succeeded => FRESH
    case FailedAt(now) =>
      if b.state == HalfOpen then b.(state := Open, lastFailure := now, probe := false)
      else
        var count := if b.lastFailure == ZERO_TIME || now - b.lastFailure > cfg.window then 1 else b.failureCount + 1;
        b.(state := if count >= cfg.threshold then Open else b.state, failureCount := count, lastFailure := now)
  }

  /** The breaker after a history. */
  function Play(cfg: Config, history: seq<Op>): Breaker {
    if history == [] then FRESH else After(cfg, Play(cfg, history[..|history| - 1]), history[|history| - 1])
  }

  // ---- The breaker as an object ---------------------------------------------------------------------------

  class Circuit {
    const cfg: Config
    var state: CircuitState
    var failureCount: int
    var lastFailure: int
    var halfOpenProbe: bool
    ghost var history: seq<Op>

    ghost function Abs(): Breaker
      reads this
    {
      Breaker(state, failureCount, lastFailure, halfOpenProbe)
    }

    ghost predicate Valid()
      reads this
    {
      Abs() == Play(cfg, history)
    }

    constructor (coolDown: int, threshold: int, window: int)
      ensures Valid() && history == []
      ensures cfg.coolDown > 0 && cfg.threshold > 0 && cfg.window > 0
      ensures coolDown > 0 ==> cfg.coolDown == coolDown
      ensures threshold > 0 ==> cfg.threshold == threshold
      ensures window > 0 ==> cfg.window == window
      ensures coolDown <= 0 ==> cfg.coolDown == 60_000_000_000
      ensures threshold <= 0 ==> cfg.threshold == 5
      ensures window <= 0 ==> cfg.window == 300_000_000_000
    {
      cfg := Config(
        if coolDown <= 0 then 60 * NANOSECONDS else coolDown,
        if threshold <= 0 then 5 else threshold,
        if window <= 0 then 300 * NANOSECONDS else window);
      state, failureCount, lastFailure, halfOpenProbe := Closed, 0, ZERO_TIME, false;
      history := [];
    }

    method Allow(now: int) returns (ok: bool)
      requires Valid()
      modifies this
      ensures Valid() && history == old(history) + [Ask(now)]
      ensures ok == Granted(cfg, old(Abs()), now)
    {
      history := history + [Ask(now)];
      if state == Closed {
        return true;
      }
      if state == Open {
        if now - lastFailure >= cfg.coolDown {
          state := HalfOpen;
          halfOpenProbe := false;
        } else {
          return false;
        }
      }
      if halfOpenProbe {
        return false;
      }
      halfOpenProbe := true;
      return true;
    }

    method RecordSuccess()
      requires Valid()
      modifies this
      ensures Valid() && history == old(history) + [Succeeded]
    {
      history := history + [Succeeded];
      state, failureCount, lastFailure, halfOpenProbe := Closed, 0, ZERO_TIME, false;
    }

    method RecordFailure(now: int)
      requires Valid()
      modifies this
      ensures Valid() && history == old(history) + [FailedAt(now)]
    {
      history := history + [FailedAt(now)];
      if state == HalfOpen {
        state, lastFailure, halfOpenProbe := Open, now, false;
        return;
      }
      if lastFailure == ZERO_TIME || now - lastFailure > cfg.window {
        failureCount := 0;
      }
      failureCount := failureCount + 1;
      lastFailure := now;
      if failureCount >= cfg.threshold {
        state := Open;
      }
    }
  }

  /** The guarded part of `InvokeTool`: one report for a granted call, none for a refused one. */
  method InvokeTool(cb: Circuit, asked: int, reported: int, authResolves: bool, callSucceeds: bool)
    returns (result: Option<bool>)
    requires cb.Valid()
    modifies cb
    ensures cb.Valid()
    ensures result == if Granted(cb.cfg, old(cb.Abs()), asked) then Some(authResolves && callSucceeds) else None
    ensures cb.history == old(cb.history) + [Ask(asked)] +
              match result
              case None => []
              case Some(true) => [Succeeded]
              case Some(false) => [FailedAt(reported)]
  {
    var ok := cb.Allow(asked);
    if !ok {
      return None;
    }
    if !authResolves {
      cb.RecordFailure(reported);
      return Some(false);
    }
    if !callSucceeds {
      cb.RecordFailure(reported);
      return Some(false);
    }
    cb.RecordSuccess();
    return Some(true);
  }

  // ---- The breaker against its history --------------------------------------------------------------------

  /** The failure reports since the last success. */
  function Failures(history: seq<Op>): seq<int> {
    if history == [] then []
    else
      var before := Failures(history[..|history| - 1]);
      match history[|history| - 1]
      case Ask(_) => before
      case Succeeded => []
      case FailedAt(t) => before + [t]
  }

  /** The length of the longest final run of failures whose gaps stay within the window. */
  function RunLength(window: int, times: seq<int>): nat {
    var n := |times|;
    if n <= 1 then n
    else if times[n - 1] - times[n - 2] > window then 1
    else 1 + RunLength(window, times[..n - 1])
  }

  function Latest(times: seq<int>): int {
    if times == [] then ZERO_TIME else times[|times| - 1]
  }

  /** The clock never reads Go's zero time. */
  predicate Timed(history: seq<Op>) {
    forall op :: op in history && op.FailedAt? ==> op.at != ZERO_TIME
  }

  /** What the breaker holds, given the failures since the last success. */
  ghost predicate Reflects(cfg: Config, b: Breaker, times: seq<int>) {
    && b.lastFailure == Latest(times)
    && (b.state == Closed ==> b.failureCount == RunLength(cfg.window, times) < cfg.threshold)
    && (b.state != Closed ==> times != [])
    && (b.probe <==> b.state == HalfOpen)
  }

  /** One more failure lengthens the run when it falls within the window, and starts a new one otherwise. */
  lemma {:induction false} RunGrows(window: int, times: seq<int>, now: int)
    ensures RunLength(window, times + [now]) ==
            if times == [] || now - Latest(times) > window then 1 else RunLength(window, times) + 1
  {
    assert (times + [now])[..|times|] == times;
  }

  lemma {:induction false} FailureReflects(cfg: Config, b: Breaker, times: seq<int>, now: int)
    requires cfg.threshold > 0 && Reflects(cfg, b, times) && (times == [] <==> b.lastFailure == ZERO_TIME)
    ensures Reflects(cfg, After(cfg, b, FailedAt(now)), times + [now])
  {
    RunGrows(cfg.window, times, now);
  }

  /**
   * In every history: the stored failure time is that of the latest failure since the last success; a closed
   * breaker has counted exactly the current run of failures, and it is below the threshold; a breaker that is
   * not closed has seen a failure; and only a half-open one has a probe out.
   */
  lemma {:induction false} BreakerMatchesHistory(cfg: Config, history: seq<Op>)
    requires cfg.threshold > 0 && Timed(history)
    ensures Reflects(cfg, Play(cfg, history), Failures(history))
    ensures Failures(history) == [] <==> Latest(Failures(history)) == ZERO_TIME
  {
    if history != [] {
      var n := |history| - 1;
      BreakerMatchesHistory(cfg, history[..n]);
      if history[n].FailedAt? {
        assert history[n] in history;
        FailureReflects(cfg, Play(cfg, history[..n]), Failures(history[..n]), history[n].at);
      }
    }
  }

  /**
   * Leaving the closed state: requests are always granted, and the breaker opens exactly when a failure makes the
   * run of failures within the window as long as the threshold.
   */
  lemma {:induction false} LeavingClosed(cfg: Config, history: seq<Op>, op: Op)
    requires cfg.threshold > 0 && Timed(history + [op]) && Play(cfg, history).state == Closed
    ensures Play(cfg, history + [op]).state ==
            if op.FailedAt? && RunLength(cfg.window, Failures(history) + [op.at]) >= cfg.threshold then Open else Closed
    ensures forall now :: Granted(cfg, Play(cfg, history), now)
  {
    assert (history + [op])[..|history|] == history;
    assert forall x :: x in history ==> x in history + [op];
    BreakerMatchesHistory(cfg, history);
    if op.FailedAt? {
      RunGrows(cfg.window, Failures(history), op.at);
    }
  }

  /**
   * Leaving the open state. The cool-down since the latest failure is kept unless a call granted earlier
   * reports success late; such a report closes the breaker at once.
   */
  lemma {:induction false} LeavingOpen(cfg: Config, history: seq<Op>, op: Op)
    requires cfg.threshold > 0 && Timed(history) && Play(cfg, history).state == Open
    ensures Play(cfg, history + [op]).state ==
            if op.Succeeded? then Closed
            else if op.Ask? && op.at - Latest(Failures(history)) >= cfg.coolDown then HalfOpen
            else Open
    ensures forall now :: Granted(cfg, Play(cfg, history), now) <==> now - Latest(Failures(history)) >= cfg.coolDown
  {
    BreakerMatchesHistory(cfg, history);
    assert (history + [op])[..|history|] == history;
  }

  /** Leaving the half-open state, exactly by a report. Until then every request is refused. */
  lemma {:induction false} LeavingHalfOpen(cfg: Config, history: seq<Op>, op: Op)
    requires cfg.threshold > 0 && Timed(history) && Play(cfg, history).state == HalfOpen
    ensures Play(cfg, history + [op]).state ==
            match op { case Ask(_) => HalfOpen case Succeeded => Closed case FailedAt(_) => Open }
    ensures forall now :: !Granted(cfg, Play(cfg, history), now)
  {
    BreakerMatchesHistory(cfg, history);
    assert (history + [op])[..|history|] == history;
  }

  /** A failed probe reopens the breaker: the next one is granted exactly once the cool-down has passed again. */
  lemma {:induction false} FailedProbeReopens(cfg: Config, history: seq<Op>, t: int, now: int)
    requires cfg.threshold > 0 && Timed(history) && Play(cfg, history).state == HalfOpen
    ensures Granted(cfg, Play(cfg, history + [FailedAt(t)]), now) <==> now - t >= cfg.coolDown
  {
    assert (history + [FailedAt(t)])[..|history|] == history;
  }

  /** A success makes the breaker forget every failure. */
  lemma {:induction false} SuccessForgets(cfg: Config, history: seq<Op>, more: seq<Op>)
    ensures Play(cfg, history + [Succeeded] + more) == Play(cfg, more)
  {
    var all := history + [Succeeded] + more;
    if more == [] {
      assert all == history + [Succeeded] && all[..|history|] == history;
    } else {
      var n := |more| - 1;
      SuccessForgets(cfg, history, more[..n]);
      assert all[..|all| - 1] == history + [Succeeded] + more[..n];
    }
  }

  /** At one moment so many calls are asked for, and then so many of them fail. */
  function Burst(at: int, asks: nat, failures: nat): seq<Op>
    decreases asks + failures
  {
    if failures > 0 then Burst(at, asks, failures - 1) + [FailedAt(at)]
    else if asks > 0 then Burst(at, asks - 1, 0) + [Ask(at)]
    else []
  }

  lemma {:induction false} BurstCounts(cfg: Config, at: int, asks: nat, failures: nat)
    requires 0 < cfg.threshold && 0 <= cfg.window && at != ZERO_TIME && failures <= cfg.threshold
    ensures Play(cfg, Burst(at, asks, failures)) ==
            Breaker(if failures == cfg.threshold then Open else Closed, failures,
                    if failures == 0 then ZERO_TIME else at, false)
    decreases asks + failures
  {
    var history := Burst(at, asks, failures);
    if failures > 0 {
      BurstCounts(cfg, at, asks, failures - 1);
      assert history[..|history| - 1] == Burst(at, asks, failures - 1);
    } else if asks > 0 {
      BurstCounts(cfg, at, asks - 1, 0);
      assert history[..|history| - 1] == Burst(at, asks - 1, 0);
    }
  }

  lemma {:induction false} BurstStartsWithAsks(at: int, asks: nat, failures: nat, i: nat)
    requires i <= asks
    ensures i <= |Burst(at, asks, failures)| && Burst(at, asks, failures)[..i] == Burst(at, i, 0)
    decreases asks + failures
  {
    var history := Burst(at, asks, failures);
    if failures > 0 {
      BurstStartsWithAsks(at, asks, failures - 1, i);
    } else if i < asks {
      BurstStartsWithAsks(at, asks - 1, 0, i);
    } else {
      BurstLength(at, asks);
      assert history[..i] == history;
    }
  }

  lemma {:induction false} BurstLength(at: int, asks: nat)
    ensures |Burst(at, asks, 0)| == asks
  {
    if asks > 0 {
      BurstLength(at, asks - 1);
    }
  }

  /**
   * Whatever the threshold: one call more than the threshold is granted, all but one of them fail and open the
   * breaker, and the success of the last one closes it within the cool-down.
   */
  lemma {:induction false} LateSuccessSkipsCoolDown(cfg: Config, at: int)
    requires 0 < cfg.threshold && 0 < cfg.coolDown && 0 <= cfg.window && at != ZERO_TIME
    ensures var history := Burst(at, cfg.threshold + 1, cfg.threshold);
            && |history| > cfg.threshold
            && (forall i :: 0 <= i <= cfg.threshold ==>
                  history[i] == Ask(at) && Granted(cfg, Play(cfg, history[..i]), at))
            && !Granted(cfg, Play(cfg, history), at)
            && Granted(cfg, Play(cfg, history + [Succeeded]), at)
  {
    var history := Burst(at, cfg.threshold + 1, cfg.threshold);
    BurstCounts(cfg, at, cfg.threshold + 1, cfg.threshold);
    BurstStartsWithAsks(at, cfg.threshold + 1, cfg.threshold, cfg.threshold + 1);
    assert (history + [Succeeded])[..|history|] == history;
    forall i | 0 <= i <= cfg.threshold
      ensures history[i] == Ask(at) && Granted(cfg, Play(cfg, history[..i]), at)
    {
      BurstStartsWithAsks(at, cfg.threshold + 1, cfg.threshold, i);
      BurstStartsWithAsks(at, cfg.threshold + 1, cfg.threshold, i + 1);
      BurstCounts(cfg, at, i, 0);
      BurstLength(at, i);
      assert history[..i + 1] == Burst(at, i, 0) + [Ask(at)];
      assert history[i] == history[..i + 1][i];
    }
  }

  /** How many of the calls asked for at these times are granted, with no report in between. */
  function Grants(cfg: Config, b: Breaker, times: seq<int>): nat
    decreases |times|
  {
    if times == [] then 0
    else
      Count(Granted(cfg, b, times[0])) + Grants(cfg, After(cfg, b, Ask(times[0])), times[1..])
  }

  lemma {:induction false} ProbeOutGrantsNothing(cfg: Config, b: Breaker, times: seq<int>)
    requires b.state == HalfOpen && b.probe
    ensures Grants(cfg, b, times) == 0
  {
    if times != [] {
      ProbeOutGrantsNothing(cfg, b, times[1..]);
    }
  }

  /** Once open, a breaker grants one call before the next report if any is asked after the cool-down, else none. */
  lemma {:induction false} OneProbePerHalfOpen(cfg: Config, b: Breaker, times: seq<int>)
    requires b.state == Open
    ensures Grants(cfg, b, times) == Count(exists t :: t in times && t - b.lastFailure >= cfg.coolDown)
    decreases |times|
  {
    if times != [] {
      assert forall t :: t in times <==> t == times[0] || t in times[1..];
      if Granted(cfg, b, times[0]) {
        assert times[0] in times;
        ProbeOutGrantsNothing(cfg, After(cfg, b, Ask(times[0])), times[1..]);
      } else {
        OneProbePerHalfOpen(cfg, b, times[1..]);
      }
    }
  }
}
