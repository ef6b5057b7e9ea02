/**
 * The time grid of the outbreak driver: the number of rows of the count
 * table, the step times, how many steps fit before the horizon and which
 * steps are reporting steps. All arithmetic is on exact reals; the rounding
 * and remainder functions of the C library are written out.
 */
module Schedule {
  import opened States
  import opened Course

  /**
   * Round to the nearest integer, ties to even: the result of lrint under the
   * default rounding mode.
   */
  function Lrint(x: real): (n: int)
    ensures x - 0.5 <= n as real <= x + 0.5
    ensures (n as real - x == 0.5 || x - n as real == 0.5) ==> n % 2 == 0
  {
    var f := x.Floor;
    var frac := x - f as real;
    if frac < 0.5 then f
    else if frac > 0.5 then f + 1
    else if f % 2 == 0 then f else f + 1
  }

  /** Away from a tie, Lrint is the unique nearest integer. */
  lemma LrintNearest(x: real, m: int)
    requires x - 0.5 < m as real < x + 0.5
    ensures Lrint(x) == m
  {
  }

  /** Non-negative arguments round to non-negative integers. */
  lemma LrintNonNegative(x: real)
    requires x >= 0.0
    ensures Lrint(x) >= 0
  {
  }

  /**
   * Rounding toward zero: the integer part of x, at most x when x is
   * non-negative and at least x when it is negative, and less than one
   * away from it.
   */
  function Trunc(x: real): (n: int)
    ensures x >= 0.0 ==> 0 <= n && n as real <= x < n as real + 1.0
    ensures x < 0.0 ==> n <= 0 && n as real - 1.0 < x <= n as real
  {
    if x >= 0.0 then x.Floor else -((-x).Floor)
  }

  /**
   * The C remainder fmod(x, y) for y > 0: x minus y times the quotient
   * rounded toward zero, so the result has the sign of x.
   */
  function Fmod(x: real, y: real): real
    requires y > 0.0
  {
    x - (Trunc(x / y) as real) * y
  }

  /** A multiple of y leaves no remainder. */
  lemma FmodOfMultiple(k: nat, y: real)
    requires y > 0.0
    ensures Fmod(k as real * y, y) == 0.0
  {
    assert k as real * y / y == k as real;
  }

  /** Number of rows of the count table: max_time / output_interval rounded. */
  function Rows(p: Params): (n: nat)
    requires Runnable(p)
    ensures n as real - 0.5 <= p.maxTime / p.outputInterval <= n as real + 0.5
  {
    LrintNonNegative(p.maxTime / p.outputInterval);
    Lrint(p.maxTime / p.outputInterval)
  }

  /**
   * Time of step k (step 0 is the start at time 0): the driver's clock,
   * which adds the timestep once per step.
   */
  function StepTime(p: Params, k: nat): real {
    if k == 0 then 0.0 else StepTime(p, k - 1) + p.timestep
  }

  /** Step k is at k timesteps. */
  lemma {:induction false} StepTimeIsMultiple(p: Params, k: nat)
    ensures StepTime(p, k) == k as real * p.timestep
  {
    if k > 0 {
      StepTimeIsMultiple(p, k - 1);
    }
  }

  /** Step times increase strictly with the step number. */
  lemma {:induction false} StepTimeIncreasing(p: Params, j: nat, k: nat)
    requires p.timestep > 0.0 && j < k
    ensures StepTime(p, j) < StepTime(p, k)
  {
    if j < k - 1 {
      StepTimeIncreasing(p, j, k - 1);
    }
  }

  /** No step is before the start. */
  lemma {:induction false} StepTimeNonNegative(p: Params, k: nat)
    requires p.timestep > 0.0
    ensures StepTime(p, k) >= 0.0
  {
    if k > 0 {
      StepTimeNonNegative(p, k - 1);
    }
  }

  /**
   * How many more steps run while the time is at most the horizon, when
   * `slack` is the horizon minus the next step's time.
   */
  function StepsLeft(slack: real, ts: real): nat
    requires ts > 0.0
    decreases if slack >= 0.0 then (slack / ts).Floor + 1 else 0
  {
    if slack >= 0.0 then
      DivShift(slack, ts);
      1 + StepsLeft(slack - ts, ts)
    else 0
  }

  /** The number of steps of a run that is not stopped by the population cap. */
  function Horizon(p: Params): nat
    requires Runnable(p)
  {
    StepsLeft(p.maxTime - p.timestep, p.timestep)
  }

  /**
   * Steps 1..Horizon(p) are exactly the steps whose time is at most the
   * horizon: the last one is within it and the next one is beyond it.
   */
  lemma HorizonExact(p: Params)
    requires Runnable(p)
    ensures Horizon(p) > 0 ==> StepTime(p, Horizon(p)) <= p.maxTime
    ensures StepTime(p, Horizon(p) + 1) > p.maxTime
  {
    StepsLeftExact(p, p.maxTime - p.timestep, 1);
  }

  lemma {:induction false} StepsLeftExact(p: Params, slack: real, k: nat)
    requires p.timestep > 0.0 && slack == p.maxTime - StepTime(p, k)
    ensures var n := StepsLeft(slack, p.timestep);
            && (n > 0 ==> StepTime(p, k + n - 1) <= p.maxTime)
            && StepTime(p, k + n) > p.maxTime
    decreases if slack >= 0.0 then (slack / p.timestep).Floor + 1 else 0
  {
    if slack >= 0.0 {
      DivShift(slack, p.timestep);
      StepsLeftExact(p, slack - p.timestep, k + 1);
    }
  }

  /** Step k (from 1) runs exactly when it is within the horizon. */
  lemma WithinHorizon(p: Params, k: nat)
    requires Runnable(p) && 1 <= k
    ensures StepTime(p, k) <= p.maxTime <==> k <= Horizon(p)
  {
    HorizonExact(p);
    if k <= Horizon(p) {
      if k < Horizon(p) {
        StepTimeIncreasing(p, k, Horizon(p));
      }
    } else if k > Horizon(p) + 1 {
      StepTimeIncreasing(p, Horizon(p) + 1, k);
    }
  }

  /** The reporting test of a step at `time`: fmod(time, interval) < timestep. */
  predicate IsReportStep(p: Params, time: real)
    requires Runnable(p)
  {
    Fmod(time, p.outputInterval) < p.timestep
  }

  /** The number of reporting steps among steps 1..k. */
  function ReportsIn(p: Params, k: nat): (n: nat)
    requires Runnable(p)
    ensures n <= k
  {
    if k == 0 then 0
    else ReportsIn(p, k - 1) + (if IsReportStep(p, StepTime(p, k)) then 1 else 0)
  }

  /** Fewer steps never have more reporting steps. */
  lemma {:induction false} ReportsInMonotone(p: Params, j: nat, k: nat)
    requires Runnable(p) && j <= k
    ensures ReportsIn(p, j) <= ReportsIn(p, k)
    decreases k
  {
    if j < k {
      ReportsInMonotone(p, j, k - 1);
    }
  }

  /**
   * The reporting steps among steps 1..k are no more than the whole output
   * intervals elapsed by the time of step k: a reporting step lies less than
   * one timestep past a multiple of the interval, so the step before it lies
   * in an earlier interval, and no step lies in the first one.
   */
  lemma {:induction false} ReportsBelowIntervals(p: Params, k: nat)
    requires Runnable(p)
    ensures ReportsIn(p, k) <= (StepTime(p, k) / p.outputInterval).Floor
  {
    if k > 0 {
      ReportsBelowIntervals(p, k - 1);
      var t, t', i := StepTime(p, k - 1), StepTime(p, k), p.outputInterval;
      StepTimeNonNegative(p, k - 1);
      assert t' == t + p.timestep && t >= 0.0;
      DivMonotone(t, t', i);
      if IsReportStep(p, t') {
        var m := (t' / i).Floor;
        assert Trunc(t' / i) == m;
        DivBelow(t, m, i);
      }
    }
  }

  lemma DivMonotone(a: real, b: real, i: real)
    requires i > 0.0 && a <= b
    ensures a / i <= b / i
  {
    assert (b / i - a / i) * i == b - a;
    if b / i < a / i {
      MulNonNegative(a / i - b / i, i);
    }
  }

  lemma DivBelow(a: real, m: int, i: real)
    requires i > 0.0 && a < m as real * i
    ensures a / i < m as real
  {
    assert (a / i) * i == a;
    assert (a / i - m as real) * i == a - m as real * i;
    if a / i >= m as real {
      MulNonNegative(a / i - m as real, i);
    }
  }

  /**
   * Every run's reporting steps fit in the count table: at most
   * floor(max_time / output_interval) steps report, and the table has
   * lrint of that quotient rows, which is never less.
   */
  lemma ReportsFit(p: Params)
    requires Runnable(p)
    ensures ReportsIn(p, Horizon(p)) <= Rows(p)
  {
    var h, i := Horizon(p), p.outputInterval;
    if h > 0 {
      HorizonExact(p);
      ReportsBelowIntervals(p, h);
      DivMonotone(StepTime(p, h), p.maxTime, i);
      assert (p.maxTime / i).Floor <= Lrint(p.maxTime / i);
    }
  }

  /**
   * Under the defaults the table has 52 rows (364 / 7), and the step at time
   * 7 (one reporting interval) is a reporting step.
   */
  lemma DefaultsSchedule()
    ensures Runnable(Defaults) && Rows(Defaults) == 52
    ensures IsReportStep(Defaults, 7.0)
  {
    DefaultsFacts();
    LrintNearest(364.0 / 7.0, 52);
    FmodOfMultiple(1, 7.0);
  }
}
