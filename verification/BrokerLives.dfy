/** The broker over all its lives: what was admitted before each restart, and how much at most. */
module BrokerLives {
  import opened Durations
  import opened Broker
  import opened BrokerRuns
  import RateLimit

  function Last(states: seq<State>): State
    requires states != []
  {
    states[|states| - 1]
  }

  function RestartsIn(steps: seq<Step>, n: nat): nat
    requires n <= |steps|
  {
    if n == 0 then 0 else RestartsIn(steps, n - 1) + if steps[n - 1].Restart? then 1 else 0
  }

  /** The admissions of the lives that have ended within the first n steps. */
  function Past(states: seq<State>, steps: seq<Step>, n: nat): seq<Admission>
    requires n <= |steps| < |states|
  {
    if n == 0 then []
    else if steps[n - 1].Restart? then Past(states, steps, n - 1) + states[n - 1].admissions
    else Past(states, steps, n - 1)
  }

  /** All admissions of a run, those of past lives and those of the present one. */
  function AllAdmissions(states: seq<State>, steps: seq<Step>): seq<Admission>
    requires |steps| < |states|
  {
    Past(states, steps, |steps|) + Last(states).admissions
  }

  lemma {:induction false} PastPrefix(
      states: seq<State>, steps: seq<Step>, more: seq<State>, taken: seq<Step>, n: nat)
    requires n <= |steps| < |states| && |taken| < |more| && states <= more && steps <= taken
    ensures Past(more, taken, n) == Past(states, steps, n) && RestartsIn(taken, n) == RestartsIn(steps, n)
  {
    if n > 0 { PastPrefix(states, steps, more, taken, n - 1); }
  }

  lemma {:induction false} PastQuiet(states: seq<State>, steps: seq<Step>, m: nat, n: nat)
    requires m <= n <= |steps| < |states| && forall k :: m <= k < n ==> !steps[k].Restart?
    ensures Past(states, steps, n) == Past(states, steps, m) && RestartsIn(steps, n) == RestartsIn(steps, m)
  {
    if m < n { PastQuiet(states, steps, m, n - 1); }
  }

  lemma {:induction false} CountBoth(
      a: seq<RateLimit.Call>, b: seq<RateLimit.Call>, level: RateLimit.Level, lo: int, hi: int)
    ensures RateLimit.Count(a + b, level, lo, hi)
            == RateLimit.Count(a, level, lo, hi) + RateLimit.Count(b, level, lo, hi)
    decreases |b|
  {
    hide RateLimit.Count;
    if b == [] {
      assert a + b == a;
      CountNothing(level, lo, hi);
    } else {
      var front, last := b[..|b| - 1], b[|b| - 1];
      CountBoth(a, front, level, lo, hi);
      assert a + b == (a + front) + [last] && b == front + [last];
      RateLimit.CountSnoc(a + front, last, level, lo, hi);
      RateLimit.CountSnoc(front, last, level, lo, hi);
    }
  }

  /** One life admits no more in an hour than the limit. */
  lemma LifeBounded(w: World, states: seq<State>, steps: seq<Step>, n: nat, level: RateLimit.Level, instant: int)
    requires IsRun(w, states, steps) && n < |states| && level.Limit(w.limits) > 0
    ensures RateLimit.Count(CallsOf(states[n].admissions), level, instant - HOUR, instant) <= level.Limit(w.limits)
  {
    hide IsRun;
    AlwaysLimiterOk(w, states, steps, n);
    var calls := states[n].limiterCalls;
    RateLimit.WindowBound(w.limits, calls, |calls|, level, instant);
  }

  lemma {:induction false} PastBounded(
      w: World, states: seq<State>, steps: seq<Step>, n: nat, level: RateLimit.Level, instant: int)
    requires IsRun(w, states, steps) && n <= |steps| < |states| && level.Limit(w.limits) > 0
    ensures RateLimit.Count(CallsOf(Past(states, steps, n)), level, instant - HOUR, instant)
            <= RestartsIn(steps, n) * level.Limit(w.limits)
  {
    hide IsRun, RateLimit.Count;
    if n == 0 {
      assert CallsOf([]) == [];
      CountNothing(level, instant - HOUR, instant);
    } else {
      PastBounded(w, states, steps, n - 1, level, instant);
      if steps[n - 1].Restart? {
        var before, life := Past(states, steps, n - 1), states[n - 1].admissions;
        LifeBounded(w, states, steps, n - 1, level, instant);
        assert CallsOf(before + life) == CallsOf(before) + CallsOf(life);
        CountBoth(CallsOf(before), CallsOf(life), level, instant - HOUR, instant);
      }
    }
  }

  /**
   Over a run with r restarts no hour has more than r + 1 times the limit of admissions, for an
   identity, a profile key or a pair.
   */
  lemma LimitedAcrossRestarts(w: World, states: seq<State>, steps: seq<Step>, level: RateLimit.Level, instant: int)
    requires IsRun(w, states, steps) && |steps| < |states| && level.Limit(w.limits) > 0
    ensures RateLimit.Count(CallsOf(AllAdmissions(states, steps)), level, instant - HOUR, instant)
            <= (RestartsIn(steps, |steps|) + 1) * level.Limit(w.limits)
  {
    hide IsRun, RateLimit.Count, Past, RestartsIn;
    var before, life := Past(states, steps, |steps|), Last(states).admissions;
    PastBounded(w, states, steps, |steps|, level, instant);
    LifeBounded(w, states, steps, |states| - 1, level, instant);
    assert CallsOf(before + life) == CallsOf(before) + CallsOf(life);
    CountBoth(CallsOf(before), CallsOf(life), level, instant - HOUR, instant);
  }
}
