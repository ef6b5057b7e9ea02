/**
 * The course of one infection as values: the five random draws an
 * individual is created from, the 5-entry state path and the table of
 * absolute end times built from them, and the two rules of an update step:
 * how far the state cursor moves for a given time, and how many children
 * an infectious individual spawns.
 */
module Course {
  import opened Optional
  import opened States

  /**
   * The draws taken, in this order, when an individual is created: latent
   * period L, incubation factor f, infectious period I, whether the
   * individual recovers, and the recovering or dying period P.
   */
  datatype Draws = Draws(
    latentPeriod: real,
    incubationFactor: real,
    infectiousPeriod: real,
    recovers: bool,
    finalPeriod: real)

  /** Draws as the distributions produce them: periods and factor non-negative. */
  predicate NonNegative(d: Draws) {
    d.latentPeriod >= 0.0 && d.incubationFactor >= 0.0
    && d.infectiousPeriod >= 0.0 && d.finalPeriod >= 0.0
  }

  /**
   * The path through the states: latent, then symptoms-non-infectious when
   * f > 1 and latent-infectious otherwise, then symptoms, then either
   * recovering and recovered or dying and dead.
   */
  function Path(d: Draws): seq<State>
  {
    [Latent, if d.incubationFactor > 1.0 then SymptomsNonInfectious else LatentInfectious, Symptoms]
    + (if d.recovers then [Recovering, Recovered] else [Dying, Dead])
  }

  /**
   * The path has five entries with strictly increasing state numbers, so no
   * state is visited twice; only its last entry is terminal, and its third
   * entry (symptoms) is infectious.
   */
  lemma PathFacts(d: Draws)
    ensures var p := Path(d);
            && |p| == 5
            && (forall i, j :: 0 <= i < j < |p| ==> Index(p[i]) < Index(p[j]))
            && IsTerminal(p[4]) && (forall i :: 0 <= i < 4 ==> !IsTerminal(p[i]))
            && p[0] == Latent && CanInfect(p[2]) && !CanInfect(p[3])
  {
  }

  /** The path is one of exactly four shapes, chosen by f > 1 and by the recover flag. */
  lemma PathShape(d: Draws)
    ensures |Path(d)| == 5
    ensures Path(d)[0] == Latent && Path(d)[2] == Symptoms
    ensures Path(d)[1] == SymptomsNonInfectious <==> d.incubationFactor > 1.0
    ensures Path(d)[1] == LatentInfectious <==> d.incubationFactor <= 1.0
    ensures Path(d)[3..] == [Recovering, Recovered] <==> d.recovers
    ensures Path(d)[3..] == [Dying, Dead] <==> !d.recovers
  {
  }

  /** The incubation period f*L: latent period scaled by the incubation factor. */
  function Incubation(d: Draws): real {
    d.incubationFactor * d.latentPeriod
  }

  /**
   * The absolute end time of state s for an individual infected at t0, or
   * None when s is not left on this individual's path.
   */
  function EndOf(d: Draws, t0: real, s: State): (e: Option<real>)
    ensures e.Some? <==> s in Path(d)[..4]
  {
    var l := d.latentPeriod;
    var f := d.incubationFactor;
    var twoPeriods := l + d.infectiousPeriod;
    var p := Path(d);
    assert p[..4] == [p[0], p[1], p[2], p[3]];
    match s
    case Latent => Some(t0 + (if f > 1.0 then l else Incubation(d)))
    case SymptomsNonInfectious => if f > 1.0 then Some(t0 + Incubation(d)) else None
    case LatentInfectious => if f > 1.0 then None else Some(t0 + l)
    case Symptoms => Some(t0 + twoPeriods)
    case Recovering => if d.recovers then Some(t0 + twoPeriods + d.finalPeriod) else None
    case Dying => if d.recovers then None else Some(t0 + twoPeriods + d.finalPeriod)
    case Recovered => None
    case Dead => None
  }

  /** The end-time table, indexed by state number. */
  function EndTimes(d: Draws, t0: real): (e: seq<Option<real>>)
    ensures |e| == NumStates
  {
    seq(NumStates, i requires 0 <= i < NumStates => EndOf(d, t0, FromIndex(i)))
  }

  /** Entry Index(s) of the table is the end time of state s. */
  lemma EndTimesAt(d: Draws, t0: real)
    ensures forall s :: EndTimes(d, t0)[Index(s)] == EndOf(d, t0, s)
  {
    forall s ensures EndTimes(d, t0)[Index(s)] == EndOf(d, t0, s) {
      IndexBijective(s, s);
    }
  }

  /** The table written out entry by entry, in state-number order. */
  lemma EndTimesListed(d: Draws, t0: real)
    ensures EndTimes(d, t0) == [
      EndOf(d, t0, Latent), EndOf(d, t0, SymptomsNonInfectious),
      EndOf(d, t0, LatentInfectious), EndOf(d, t0, Symptoms),
      EndOf(d, t0, Recovering), EndOf(d, t0, Dying),
      EndOf(d, t0, Recovered), EndOf(d, t0, Dead)]
  {
  }

  /** End times shifted by `t0`; an unset entry stays unset. */
  function Shift(ends: seq<Option<real>>, t0: real): (r: seq<Option<real>>)
    ensures |r| == |ends|
  {
    seq(|ends|, i requires 0 <= i < |ends| => if ends[i].Some? then Some(ends[i].value + t0) else None)
  }

  /**
   * Shifting back undoes a shift: the time-0 table is recovered from an
   * individual's absolute table, and the unset entries stay unset.
   */
  lemma ShiftInverse(ends: seq<Option<real>>, t0: real)
    ensures Shift(Shift(ends, t0), -t0) == ends
  {
    var back := Shift(Shift(ends, t0), -t0);
    forall i | 0 <= i < |ends| ensures back[i] == ends[i] {
      if ends[i].Some? {
        assert back[i] == Some(ends[i].value + t0 - t0);
      }
    }
  }

  /** The table of an individual infected at t0 is the table at time 0 shifted by t0. */
  lemma EndTimesShifted(d: Draws, t0: real)
    ensures Shift(EndTimes(d, 0.0), t0) == EndTimes(d, t0)
  {
    EndTimesListed(d, 0.0);
    EndTimesListed(d, t0);
  }

  /** The earlier of L and f*L. */
  function EarlierEnd(d: Draws): real {
    var l, fl := d.latentPeriod, Incubation(d);
    if l <= fl then l else fl
  }

  /** The later of L and f*L. */
  function LaterEnd(d: Draws): real {
    var l, fl := d.latentPeriod, Incubation(d);
    if l <= fl then fl else l
  }

  /** L + I: the end of symptoms, relative to infection. */
  function SymptomsEnd(d: Draws): real {
    d.latentPeriod + d.infectiousPeriod
  }

  /**
   * With non-negative draws, latent ends at the earlier of L and f*L after
   * infection, the second path state at the later one, symptoms at L+I and
   * the outcome state P after that; every end time is at or after t0.
   */
  lemma EndTimesMeaning(d: Draws, t0: real)
    requires NonNegative(d)
    ensures EndOf(d, t0, Latent) == Some(t0 + EarlierEnd(d))
    ensures EndOf(d, t0, Path(d)[1]) == Some(t0 + LaterEnd(d))
    ensures EndOf(d, t0, Symptoms) == Some(t0 + SymptomsEnd(d))
    ensures EndOf(d, t0, Path(d)[3]) == Some(t0 + SymptomsEnd(d) + d.finalPeriod)
    ensures forall i :: 0 <= i < 4 ==> EndOf(d, t0, Path(d)[i]).value >= t0
  {
    PathShape(d);
    IncubationOrder(d);
    assert EndOf(d, t0, Latent) == Some(t0 + EarlierEnd(d));
    assert EndOf(d, t0, Path(d)[1]) == Some(t0 + LaterEnd(d));
    EndOutcome(d, t0);
    forall i | 0 <= i < 4 ensures EndOf(d, t0, Path(d)[i]).value >= t0 {
      if i == 0 {
        assert Path(d)[i] == Latent;
      }
    }
  }

  /** f*L is at least L exactly when f > 1 (for non-negative draws), and never negative. */
  lemma IncubationOrder(d: Draws)
    requires NonNegative(d)
    ensures Incubation(d) >= 0.0
    ensures d.incubationFactor > 1.0 ==> d.latentPeriod <= Incubation(d)
    ensures d.incubationFactor <= 1.0 ==> Incubation(d) <= d.latentPeriod
  {
    var l, f := d.latentPeriod, d.incubationFactor;
    MulNonNegative(f, l);
    if f > 1.0 {
      MulNonNegative(f - 1.0, l);
      assert (f - 1.0) * l == f * l - l;
    } else {
      MulNonNegative(1.0 - f, l);
      assert (1.0 - f) * l == l - f * l;
    }
  }

  /** Symptoms end at L+I after infection, and the outcome state P after that. */
  lemma EndOutcome(d: Draws, t0: real)
    ensures EndOf(d, t0, Symptoms) == Some(t0 + SymptomsEnd(d))
    ensures EndOf(d, t0, Path(d)[3]) == Some(t0 + SymptomsEnd(d) + d.finalPeriod)
  {
    PathShape(d);
  }

  lemma MulNonNegative(a: real, b: real)
    requires a >= 0.0 && b >= 0.0
    ensures a * b >= 0.0
  {
  }

  lemma ZeroProduct(a: real, b: real)
    requires a * b == 0.0 && b != 0.0
    ensures a == 0.0
  {
  }

  lemma DivShift(gap: real, delta: real)
    requires delta > 0.0
    ensures (gap - delta) / delta == gap / delta - 1.0
  {
    var q, r := gap / delta, (gap - delta) / delta;
    assert q * delta == gap;
    assert r * delta == gap - delta;
    assert (r - q + 1.0) * delta == 0.0;
    ZeroProduct(r - q + 1.0, delta);
  }

  /** End times read along the path never decrease. */
  predicate Ordered(d: Draws, t0: real) {
    forall i, j :: 0 <= i < j < 4 ==>
      EndOf(d, t0, Path(d)[i]).value <= EndOf(d, t0, Path(d)[j]).value
  }

  /**
   * With non-negative draws, the end times along the path are ordered
   * exactly when the path goes through latent-infectious, or when
   * symptoms-non-infectious does not outlast the infectious period
   * (f*L <= L+I).
   */
  lemma OrderedIff(d: Draws, t0: real)
    requires NonNegative(d)
    ensures Ordered(d, t0) <==>
      (d.incubationFactor <= 1.0 || d.incubationFactor * d.latentPeriod <= d.latentPeriod + d.infectiousPeriod)
  {
    var l, f := d.latentPeriod, d.incubationFactor;
    EndTimesMeaning(d, t0);
    if f > 1.0 && f * l > l + d.infectiousPeriod {
      assert EndOf(d, t0, Path(d)[1]).value > EndOf(d, t0, Path(d)[2]).value;
    }
  }

  /**
   * End times along the path need not be ordered: with L = 10, f = 1.2 and
   * I = 1, symptoms-non-infectious ends at 12 but symptoms at 11.
   */
  lemma UnorderedExample()
    ensures var d := Draws(10.0, 1.2, 1.0, true, 1.0);
            NonNegative(d) && !Ordered(d, 0.0)
  {
    var d := Draws(10.0, 1.2, 1.0, true, 1.0);
    assert EndOf(d, 0.0, Path(d)[1]) == Some(12.0);
    assert EndOf(d, 0.0, Path(d)[2]) == Some(11.0);
  }

  // ---------------------------------------------------------------------
  // The state cursor.

  /** A path of five entries and an end-time table with one entry per state. */
  predicate Shaped(path: seq<State>, ends: seq<Option<real>>) {
    |path| == 5 && |ends| == NumStates
  }

  /**
   * What every individual's path and end-time table satisfy: five entries,
   * state numbers strictly increasing, every non-terminal entry has an end
   * time and the terminal one has none.
   */
  predicate WellFormed(path: seq<State>, ends: seq<Option<real>>) {
    && Shaped(path, ends)
    && Index(path[0]) < Index(path[1]) < Index(path[2]) < Index(path[3]) < Index(path[4])
    && ends[Index(path[0])].Some? && ends[Index(path[1])].Some?
    && ends[Index(path[2])].Some? && ends[Index(path[3])].Some?
    && ends[Index(path[4])].None?
    && !IsTerminal(path[0]) && !IsTerminal(path[1]) && !IsTerminal(path[2]) && !IsTerminal(path[3])
    && IsTerminal(path[4])
  }

  /** Every path and table built from draws are well formed. */
  lemma BuiltWellFormed(d: Draws, t0: real)
    ensures WellFormed(Path(d), EndTimes(d, t0))
  {
    var p, e := Path(d), EndTimes(d, t0);
    PathFacts(d);
    EndTimesAt(d, t0);
    assert p[..4] == [p[0], p[1], p[2], p[3]];
    forall i | 0 <= i < 4 ensures e[Index(p[i])].Some? {
      assert e[Index(p[i])] == EndOf(d, t0, p[i]);
    }
    assert e[Index(p[4])] == EndOf(d, t0, p[4]);
  }

  /** The end time of state s has been reached by `time` (an unset one never is). */
  predicate Passed(ends: seq<Option<real>>, s: State, time: real)
    requires |ends| == NumStates
  {
    ends[Index(s)].Some? && time >= ends[Index(s)].value
  }

  /**
   * Where the cursor stops when it starts at `pos` and moves forward while
   * the current state's end time has passed. The cursor never leaves the
   * path; on a well-formed path that bound is never what stops it, since
   * the last entry has no end time (SettleStops).
   */
  function Settle(path: seq<State>, ends: seq<Option<real>>, pos: nat, time: real): (r: nat)
    requires Shaped(path, ends) && pos < |path|
    ensures pos <= r < |path|
    decreases |path| - pos
  {
    if pos + 1 < |path| && Passed(ends, path[pos], time) then Settle(path, ends, pos + 1, time) else pos
  }

  /** On a well-formed path the cursor stops at the first position whose end time has not passed. */
  lemma {:induction false} SettleStops(path: seq<State>, ends: seq<Option<real>>, pos: nat, time: real)
    requires WellFormed(path, ends) && pos < |path|
    ensures !Passed(ends, path[Settle(path, ends, pos, time)], time)
    decreases |path| - pos
  {
    if pos + 1 < |path| && Passed(ends, path[pos], time) {
      SettleStops(path, ends, pos + 1, time);
    }
  }

  /** Every position the cursor moves over has its end time passed. */
  lemma {:induction false} SettleSkipped(path: seq<State>, ends: seq<Option<real>>, pos: nat, time: real)
    requires Shaped(path, ends) && pos < |path|
    ensures forall k :: pos <= k < Settle(path, ends, pos, time) ==> Passed(ends, path[k], time)
    decreases |path| - pos
  {
    if pos + 1 < |path| && Passed(ends, path[pos], time) {
      SettleSkipped(path, ends, pos + 1, time);
    }
  }

  /** The terminal entry is absorbing: from it the cursor never moves. */
  lemma TerminalAbsorbing(path: seq<State>, ends: seq<Option<real>>, time: real)
    requires WellFormed(path, ends)
    ensures Settle(path, ends, 4, time) == 4
    ensures IsTerminal(path[Settle(path, ends, 4, time)])
  {
  }

  /** A later time moves the cursor at least as far. */
  lemma {:induction false} SettleMonotone(path: seq<State>, ends: seq<Option<real>>, pos: nat, t1: real, t2: real)
    requires Shaped(path, ends) && pos < |path| && t1 <= t2
    ensures Settle(path, ends, pos, t1) <= Settle(path, ends, pos, t2)
    decreases |path| - pos
  {
    if pos + 1 < |path| && Passed(ends, path[pos], t1) {
      SettleMonotone(path, ends, pos + 1, t1, t2);
    }
  }

  /**
   * Two updates at t1 <= t2 leave the cursor where a single update at t2
   * would: the cursor depends on the latest time only, not on how often it
   * was updated before.
   */
  lemma {:induction false} SettleCompose(path: seq<State>, ends: seq<Option<real>>, pos: nat, t1: real, t2: real)
    requires Shaped(path, ends) && pos < |path| && t1 <= t2
    ensures Settle(path, ends, Settle(path, ends, pos, t1), t2) == Settle(path, ends, pos, t2)
    decreases |path| - pos
  {
    if pos + 1 < |path| && Passed(ends, path[pos], t1) {
      SettleCompose(path, ends, pos + 1, t1, t2);
    }
  }

  /**
   * Before the end of symptoms an individual that has not passed symptoms
   * has not completed its infection: its state index is at most 3.
   */
  lemma {:induction false} NotCompletedBeforeSymptomsEnd(path: seq<State>, ends: seq<Option<real>>, pos: nat, time: real)
    requires WellFormed(path, ends) && pos <= 2 && path[2] == Symptoms
    requires time < ends[Index(Symptoms)].value
    ensures Settle(path, ends, pos, time) <= 2
    ensures Index(path[Settle(path, ends, pos, time)]) <= 3
    decreases 2 - pos
  {
    if pos < 2 && Passed(ends, path[pos], time) {
      NotCompletedBeforeSymptomsEnd(path, ends, pos + 1, time);
    }
  }

  /** The end time of path entry i, for a well-formed path and i < 4. */
  function EndAt(path: seq<State>, ends: seq<Option<real>>, i: nat): real
    requires WellFormed(path, ends) && i < 4
  {
    ends[Index(path[i])].value
  }

  /**
   * With end times ordered along the path, the cursor settled from the start
   * is the number of path entries whose end time has been reached.
   */
  lemma SettleFromStartOrdered(path: seq<State>, ends: seq<Option<real>>, time: real)
    requires WellFormed(path, ends)
    requires EndAt(path, ends, 0) <= EndAt(path, ends, 1) <= EndAt(path, ends, 2) <= EndAt(path, ends, 3)
    ensures var r := Settle(path, ends, 0, time);
            && (time < EndAt(path, ends, 0) ==> r == 0)
            && (EndAt(path, ends, 0) <= time < EndAt(path, ends, 1) ==> r == 1)
            && (EndAt(path, ends, 1) <= time < EndAt(path, ends, 2) ==> r == 2)
            && (EndAt(path, ends, 2) <= time < EndAt(path, ends, 3) ==> r == 3)
            && (EndAt(path, ends, 3) <= time ==> r == 4)
  {
    var p, e := path, ends;
    if time >= EndAt(p, e, 0) {
      assert Settle(p, e, 0, time) == Settle(p, e, 1, time);
      if time >= EndAt(p, e, 1) {
        assert Settle(p, e, 1, time) == Settle(p, e, 2, time);
        if time >= EndAt(p, e, 2) {
          assert Settle(p, e, 2, time) == Settle(p, e, 3, time);
          if time >= EndAt(p, e, 3) {
            assert Settle(p, e, 3, time) == 4;
          }
        }
      }
    }
  }

  /**
   * The path position of an individual infected at t0 from draws d and
   * updated at `time` (any number of updates; see SettleCompose).
   */
  function Stage(d: Draws, t0: real, time: real): (r: nat)
    ensures r < 5
  {
    BuiltWellFormed(d, t0);
    Settle(Path(d), EndTimes(d, t0), 0, time)
  }

  /** The state at `time` of an individual infected at t0 from draws d. */
  function StatusAt(d: Draws, t0: real, time: real): (s: State)
    ensures s in Path(d)
    ensures IsTerminal(s) <==> Stage(d, t0, time) == 4
  {
    PathFacts(d);
    Path(d)[Stage(d, t0, time)]
  }

  /**
   * The state of a newly built individual over time, when the end times
   * along its path are ordered: latent until the earlier of L and f*L, then
   * the second path state until the later one, symptoms until L+I, then
   * recovering or dying until L+I+P, and recovered or dead from then on.
   */
  lemma StateOverTime(d: Draws, t0: real, time: real)
    requires NonNegative(d) && Ordered(d, t0)
    ensures var r := Stage(d, t0, time);
            && (time - t0 < EarlierEnd(d) ==> r == 0)
            && (EarlierEnd(d) <= time - t0 < LaterEnd(d) ==> r == 1)
            && (LaterEnd(d) <= time - t0 < SymptomsEnd(d) ==> r == 2)
            && (SymptomsEnd(d) <= time - t0 < SymptomsEnd(d) + d.finalPeriod ==> r == 3)
            && (SymptomsEnd(d) + d.finalPeriod <= time - t0 ==> r == 4)
  {
    var p, e := Path(d), EndTimes(d, t0);
    BuiltWellFormed(d, t0);
    EndTimesMeaning(d, t0);
    EndTimesAt(d, t0);
    PathShape(d);
    assert EndAt(p, e, 0) == t0 + EarlierEnd(d);
    assert EndAt(p, e, 1) == t0 + LaterEnd(d);
    assert EndAt(p, e, 2) == t0 + SymptomsEnd(d);
    assert EndAt(p, e, 3) == t0 + SymptomsEnd(d) + d.finalPeriod;
    assert EndOf(d, t0, p[0]).value <= EndOf(d, t0, p[1]).value <= EndOf(d, t0, p[2]).value <= EndOf(d, t0, p[3]).value;
    SettleFromStartOrdered(p, e, time);
  }

  /** Whether some entry of the path from position `from` to `to` is infectious. */
  predicate InfectiousBetween(path: seq<State>, from: nat, to: nat)
    requires from <= to < |path|
  {
    exists k :: from <= k <= to && CanInfect(path[k])
  }

  /** An individual whose cursor stays on the terminal entry never spawns. */
  lemma TerminalNeverInfectious(path: seq<State>, ends: seq<Option<real>>, time: real)
    requires WellFormed(path, ends)
    ensures !InfectiousBetween(path, 4, Settle(path, ends, 4, time))
  {
    TerminalAbsorbing(path, ends, time);
    assert !CanInfect(path[4]);
  }

  // ---------------------------------------------------------------------
  // Spawning.

  /**
   * How many children an infectious update spawns when `gap` time has
   * elapsed since the last infection: one for every `delta` step taken while
   * more than `delta` remains.
   */
  function Spawns(gap: real, delta: real): (n: nat)
    requires delta > 0.0
    decreases (gap / delta).Floor
  {
    if gap > delta then
      DivShift(gap, delta);
      1 + Spawns(gap - delta, delta)
    else 0
  }

  /** The time reached from t by n steps of delta. */
  function Advanced(t: real, n: nat, delta: real): (r: real)
    ensures delta >= 0.0 ==> r >= t
  {
    if n == 0 then t else Advanced(t, n - 1, delta) + delta
  }

  /** a steps of delta followed by b more are a + b steps. */
  lemma {:induction false} AdvancedAdd(t: real, a: nat, b: nat, delta: real)
    ensures Advanced(Advanced(t, a, delta), b, delta) == Advanced(t, a + b, delta)
  {
    if b > 0 {
      AdvancedAdd(t, a, b - 1, delta);
    }
  }

  /** n steps of delta from t reach t + n * delta. */
  lemma {:induction false} AdvancedIsMultiple(t: real, n: nat, delta: real)
    ensures Advanced(t, n, delta) == t + n as real * delta
  {
    if n > 0 {
      AdvancedIsMultiple(t, n - 1, delta);
      assert n as real * delta == (n - 1) as real * delta + delta;
    }
  }

  /**
   * A later time never gives fewer spawns: Spawns grows with the gap.
   */
  lemma {:induction false} SpawnsMonotone(g1: real, g2: real, delta: real)
    requires delta > 0.0 && g1 <= g2
    ensures Spawns(g1, delta) <= Spawns(g2, delta)
    decreases (g1 / delta).Floor
  {
    if g1 > delta {
      DivShift(g1, delta);
      DivShift(g2, delta);
      SpawnsMonotone(g1 - delta, g2 - delta, delta);
    }
  }

  /**
   * Spawning resumes where it left off: after n of the Spawns(gap) children,
   * the gap that remains once n intervals have been taken off gives exactly
   * the rest.
   */
  lemma SpawnsResume(gap: real, n: nat, delta: real)
    requires delta > 0.0 && n <= Spawns(gap, delta)
    ensures n + Spawns(gap - n as real * delta, delta) == Spawns(gap, delta)
  {
    SpawnsResumeSteps(gap, n, delta);
    AdvancedIsMultiple(0.0, n, delta);
  }

  /**
   * An individual infected at t0 that already has b children, no more than
   * the spawns due by time t, catches up at t: its b children and those due
   * since its last infection, b intervals after t0, make up Spawns(t - t0).
   */
  lemma SpawnsCatchUp(t0: real, b: nat, t: real, delta: real)
    requires delta > 0.0 && b <= Spawns(t - t0, delta)
    ensures b + Spawns(t - (t0 + b as real * delta), delta) == Spawns(t - t0, delta)
  {
    SpawnsResume(t - t0, b, delta);
    assert t - (t0 + b as real * delta) == (t - t0) - b as real * delta;
  }

  lemma {:induction false} SpawnsResumeSteps(gap: real, n: nat, delta: real)
    requires delta > 0.0 && n <= Spawns(gap, delta)
    ensures n + Spawns(gap - Advanced(0.0, n, delta), delta) == Spawns(gap, delta)
  {
    if n > 0 {
      SpawnsResumeSteps(gap, n - 1, delta);
      var rest := gap - Advanced(0.0, n - 1, delta);
      assert Spawns(rest, delta) >= 1;
      DivShift(rest, delta);
      assert rest - delta == gap - Advanced(0.0, n, delta);
    }
  }

  /**
   * Spawns(gap, delta) is the least n after which at most delta of the gap
   * remains; children are spawned only when more than delta has elapsed,
   * and n steps of delta fit strictly inside the gap.
   */
  lemma {:induction false} SpawnsExact(gap: real, delta: real)
    requires delta > 0.0
    ensures var n := Spawns(gap, delta);
            && gap - n as real * delta <= delta
            && (n > 0 ==> gap - (n - 1) as real * delta > delta)
            && (n == 0 <==> gap <= delta)
            && (n > 0 ==> n as real * delta < gap)
    decreases (gap / delta).Floor
  {
    if gap > delta {
      DivShift(gap, delta);
      SpawnsExact(gap - delta, delta);
      var m := Spawns(gap - delta, delta);
      assert Spawns(gap, delta) == m + 1;
      assert (m + 1) as real * delta == m as real * delta + delta;
    }
  }
}
