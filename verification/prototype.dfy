/**
 * The earlier prototype of the simulator. It uses the same individuals and
 * the same paths and end times, but different update rules: an update moves
 * at most one path entry and spawns at most one child. Time runs in whole
 * steps 1, 2, ..., n_iter. Newborns join the list that is being swept, so
 * they are updated in the step in which they are born. The states are
 * counted once, at the end.
 */
module Prototype {
  import opened Optional
  import opened Lists
  import opened States
  import opened Course

  // ---------------------------------------------------------------------
  // The prototype's cursor rule.

  /**
   * One prototype update of the cursor: to the next path entry when the end
   * time of the current state has passed. On a well-formed path this never
   * runs off the end, because the last entry has no end time.
   */
  function StepOnce(path: seq<State>, ends: seq<Option<real>>, pos: nat, time: real): (r: nat)
    requires WellFormed(path, ends) && pos < |path|
    ensures r < |path|
  {
    if Passed(ends, path[pos], time) then pos + 1 else pos
  }

  /** Settling from any position the cursor passes over gives the same result as settling from the start. */
  lemma {:induction false} SettleThrough(path: seq<State>, ends: seq<Option<real>>, from: nat, pos: nat, time: real)
    requires Shaped(path, ends) && from <= pos < |path| && pos <= Settle(path, ends, from, time)
    ensures Settle(path, ends, pos, time) == Settle(path, ends, from, time)
    decreases pos - from
  {
    if from < pos {
      SettleThrough(path, ends, from + 1, pos, time);
    }
  }

  /**
   * One prototype step moves toward where the driver's update would settle,
   * never past it: it stays put exactly when the driver's update would, and
   * settling afterwards lands in the same place.
   */
  lemma StepOnceTowardSettle(path: seq<State>, ends: seq<Option<real>>, pos: nat, time: real)
    requires WellFormed(path, ends) && pos < |path|
    ensures pos <= StepOnce(path, ends, pos, time) <= Settle(path, ends, pos, time)
    ensures StepOnce(path, ends, pos, time) == pos <==> Settle(path, ends, pos, time) == pos
    ensures Settle(path, ends, StepOnce(path, ends, pos, time), time) == Settle(path, ends, pos, time)
  {
    if Passed(ends, path[pos], time) {
      assert Settle(path, ends, pos, time) == Settle(path, ends, pos + 1, time);
    }
  }

  /** n prototype updates at the same time. */
  function StepTimes(path: seq<State>, ends: seq<Option<real>>, pos: nat, time: real, n: nat): (r: nat)
    requires WellFormed(path, ends) && pos < |path|
    ensures r < |path|
    decreases n
  {
    if n == 0 then pos else StepTimes(path, ends, StepOnce(path, ends, pos, time), time, n - 1)
  }

  /**
   * Enough prototype updates at one time catch up with the driver's single
   * update: after as many updates as there are entries left, the cursor is
   * where Settle puts it.
   */
  lemma {:induction false} StepTimesReachSettle(path: seq<State>, ends: seq<Option<real>>, pos: nat, time: real, n: nat)
    requires WellFormed(path, ends) && pos < |path| && pos + n >= |path| - 1
    ensures StepTimes(path, ends, pos, time, n) == Settle(path, ends, pos, time)
    decreases n
  {
    StepOnceTowardSettle(path, ends, pos, time);
    var next := StepOnce(path, ends, pos, time);
    if n == 0 {
      assert pos == |path| - 1;
    } else if next == pos {
      StepTimesStay(path, ends, pos, time, n);
    } else {
      StepTimesReachSettle(path, ends, next, time, n - 1);
    }
  }

  /** Once the driver's update would not move the cursor, no prototype update does. */
  lemma {:induction false} StepTimesStay(path: seq<State>, ends: seq<Option<real>>, pos: nat, time: real, n: nat)
    requires WellFormed(path, ends) && pos < |path| && Settle(path, ends, pos, time) == pos
    ensures StepTimes(path, ends, pos, time, n) == pos
    decreases n
  {
    if n > 0 {
      StepOnceTowardSettle(path, ends, pos, time);
      StepTimesStay(path, ends, pos, time, n - 1);
    }
  }

  /**
   * The cursor after the prototype's updates at steps first, first + 1,
   * ..., t, one StepOnce each, starting from the first path entry (still
   * there when t < first).
   */
  function Walked(path: seq<State>, ends: seq<Option<real>>, first: int, t: int): (r: nat)
    requires WellFormed(path, ends)
    ensures r < |path|
    decreases if t < first then 0 else t - first + 1
  {
    if t < first then 0 else StepOnce(path, ends, Walked(path, ends, first, t - 1), t as real)
  }

  /**
   * The prototype's cursor never passes the driver's: after the updates up
   * to step t it is at most where settling at time t puts it.
   */
  lemma {:induction false} WalkedBehind(path: seq<State>, ends: seq<Option<real>>, first: int, t: int)
    requires WellFormed(path, ends)
    ensures Walked(path, ends, first, t) <= Settle(path, ends, 0, t as real)
    decreases if t < first then 0 else t - first + 1
  {
    if t >= first {
      var p := Walked(path, ends, first, t - 1);
      WalkedBehind(path, ends, first, t - 1);
      SettleMonotone(path, ends, 0, (t - 1) as real, t as real);
      SettleThrough(path, ends, 0, p, t as real);
      StepOnceTowardSettle(path, ends, p, t as real);
    }
  }

  /** Display name of a state as the prototype spells it: hyphens where the C++ program has underscores. */
  function PyName(s: State): (n: string)
    ensures |n| > 0
  {
    match s
    case Latent => "latent"
    case SymptomsNonInfectious => "symptoms-non-infectious"
    case LatentInfectious => "latent-infectious"
    case Symptoms => "symptoms"
    case Recovering => "recovering"
    case Dying => "dying"
    case Recovered => "recovered"
    case Dead => "dead"
  }

  /** The prototype's names are pairwise different, so a name identifies its state. */
  lemma PyNamesDistinct(s: State, t: State)
    ensures PyName(s) == PyName(t) ==> s == t
  {
    if PyName(s) == PyName(t) && s != t {
    }
  }

  // ---------------------------------------------------------------------
  // The prototype's individual.

  /** The part of an individual that its updates change: cursor, latest infection, offspring. */
  datatype Mark = Mark(pos: nat, last: int, offspring: seq<Infectee>)

  class Infectee {
    /** Who infected this individual (null for the index case). */
    const infector: Infectee?
    /** The whole time step at which this individual was infected. */
    const infectionTime: int
    /** Creation number: how many individuals were created before this one. */
    ghost const id: nat
    /** The random draws this individual was built from. */
    ghost const draws: Draws

    /** The states this individual goes through, in order. */
    const path: seq<State>
    /** Absolute end time of each state, by state number (None for NaN). */
    const endTimes: seq<Option<real>>
    /** Position of the status iterator in `path`: the current state is path[pos]. */
    var pos: nat
    /** Time step of the latest infection caused by this individual. */
    var lastInfection: int
    /** The individuals this one infected, in order of infection. */
    var offspring: seq<Infectee>

    ghost predicate Valid()
      reads this
    {
      WellFormed(path, endTimes) && pos < |path|
    }

    /** The path and end-time table are the ones the draws `d` give. */
    ghost predicate BuiltFrom(d: Draws) {
      path == Path(d) && endTimes == EndTimes(d, infectionTime as real)
    }

    /**
     * The cursor is no further than where the driver's updates up to time
     * t would put it: infected by t, and p at most the settled position.
     */
    ghost predicate BehindAs(p: nat, t: int) {
      Shaped(path, endTimes) && infectionTime <= t && p <= Settle(path, endTimes, 0, t as real)
    }

    /**
     * The first step at which the prototype updates this individual: step 1
     * for the index case, the step of its birth for a newborn, which joins
     * the list that step is sweeping.
     */
    function FirstStep(): int {
      if infectionTime < 1 then 1 else infectionTime
    }

    /** The current value of the part that updates change. */
    ghost function Now(): Mark
      reads this
    {
      Mark(pos, lastInfection, offspring)
    }

    /** Freshly created by `parent` at `time` from draws `d`, and not updated since. */
    ghost predicate Newborn(parent: Infectee?, time: int, d: Draws)
      reads this
    {
      && draws == d && BuiltFrom(d) && Shaped(path, endTimes)
      && infector == parent && infectionTime == time
      && pos == 0 && lastInfection == time && offspring == []
    }

    /**
     * Creates individual number `id`, infected by `infector` at step
     * `infectionTime`, from the draws `d`: the states and the end-time table
     * it builds are Course.Path(d) and Course.EndTimes(d, infectionTime),
     * the same course the driver's individuals are given.
     */
    constructor (infector: Infectee?, infectionTime: int, d: Draws, ghost id: nat)
      ensures Newborn(infector, infectionTime, d) && this.id == id
    {
      this.infector := infector;
      this.infectionTime := infectionTime;
      this.id := id;
      this.draws := d;
      var trajectory := [Latent];
      var ends: seq<Option<real>> := [None, None, None, None, None, None, None, None];
      var latentPeriod := d.latentPeriod;
      var incubationFactor := d.incubationFactor;
      if incubationFactor > 1.0 {
        trajectory := trajectory + [SymptomsNonInfectious];
        ends := ends[0 := Some(latentPeriod)][1 := Some(incubationFactor * latentPeriod)];
      } else {
        trajectory := trajectory + [LatentInfectious];
        ends := ends[0 := Some(incubationFactor * latentPeriod)][2 := Some(latentPeriod)];
      }
      trajectory := trajectory + [Symptoms];
      var twoPeriods := latentPeriod + d.infectiousPeriod;
      ends := ends[3 := Some(twoPeriods)];
      var timeEnd: real;
      if d.recovers {
        trajectory := trajectory + [Recovering, Recovered];
        timeEnd := twoPeriods + d.finalPeriod;
      } else {
        trajectory := trajectory + [Dying, Dead];
        timeEnd := twoPeriods + d.finalPeriod;
      }
      assert Index(trajectory[|trajectory| - 2]) == (if d.recovers then 4 else 5);
      ends := ends[Index(trajectory[|trajectory| - 2]) := Some(timeEnd)];
      ghost var relative := ends;
      ends := Shift(ends, infectionTime as real);
      this.path := trajectory;
      this.endTimes := ends;
      pos := 0;
      lastInfection := infectionTime;
      offspring := [];
      new;
      EndTimesListed(d, 0.0);
      assert incubationFactor * latentPeriod == Incubation(d);
      if incubationFactor > 1.0 {
        if d.recovers {
          assert relative == [Some(latentPeriod), Some(Incubation(d)), None, Some(twoPeriods), Some(timeEnd), None, None, None];
        } else {
          assert relative == [Some(latentPeriod), Some(Incubation(d)), None, Some(twoPeriods), None, Some(timeEnd), None, None];
        }
      } else {
        if d.recovers {
          assert relative == [Some(Incubation(d)), None, Some(latentPeriod), Some(twoPeriods), Some(timeEnd), None, None, None];
        } else {
          assert relative == [Some(Incubation(d)), None, Some(latentPeriod), Some(twoPeriods), None, Some(timeEnd), None, None];
        }
      }
      assert relative == EndTimes(d, 0.0);
      EndTimesShifted(d, infectionTime as real);
      assert path == Path(d);
    }

    /** The current state: entry pos of the course Course.Path gives. */
    function Status(): (s: State)
      reads this
      requires Valid()
      ensures s in path && (IsTerminal(s) <==> pos == 4)
    {
      path[pos]
    }

    /** The display name of the current state; it names no other state. */
    function StatusName(): (n: string)
      reads this
      requires Valid()
      ensures forall s :: PyName(s) == n <==> s == Status()
    {
      forall s | PyName(s) == PyName(Status()) ensures s == Status() {
        PyNamesDistinct(s, Status());
      }
      PyName(Status())
    }

    /** Whether this individual can infect others now: state number 2 or 3. */
    function CanInfectNow(): (b: bool)
      reads this
      requires Valid()
      ensures b <==> Index(Status()) == 2 || Index(Status()) == 3
    {
      CanInfectByIndex(Status());
      CanInfect(Status())
    }

    /**
     * End time of the current state, looked up in the table Course.EndTimes
     * gives; NaN (None) exactly in the terminal state.
     */
    function TimeNext(): (e: Option<real>)
      reads this
      requires Valid()
      ensures e.None? <==> IsTerminal(Status())
    {
      endTimes[Index(Status())]
    }

    /** The number of individuals this one has infected. */
    function NumInfected(): nat
      reads this
    {
      |offspring|
    }

    /** Records `other` as infected by this individual. */
    method Infect(other: Infectee) returns (r: Infectee)
      modifies this
      ensures r == other
      ensures offspring == old(offspring) + [other]
      ensures pos == old(pos) && lastInfection == old(lastInfection)
    {
      offspring := offspring + [other];
      r := other;
    }

    /**
     * One prototype update at step `time`: moves the status iterator one
     * entry on when the current end time has passed; then, if the (new)
     * state is infectious and more than `infectDelta` has elapsed since the
     * last infection, creates individual number `id` from draws `d`,
     * infected by this one at `time`, and returns it (null otherwise).
     */
    method Update(time: int, infectDelta: real, d: Draws, ghost id: nat) returns (child: Infectee?)
      requires Valid()
      modifies this
      ensures Valid() && pos == StepOnce(path, endTimes, old(pos), time as real)
      ensures if CanInfect(Status()) && (time - old(lastInfection)) as real > infectDelta
              then && child != null && fresh(child) && child.Newborn(this, time, d) && child.id == id
                   && offspring == old(offspring) + [child] && lastInfection == time
              else child == null && offspring == old(offspring) && lastInfection == old(lastInfection)
    {
      if Passed(endTimes, Status(), time as real) {
        pos := pos + 1;
      }
      child := null;
      if CanInfectNow() {
        if (time - lastInfection) as real > infectDelta {
          var born := new Infectee(this, time, d, id);
          child := Infect(born);
          lastInfection := time;
        }
      }
    }
  }

  // ---------------------------------------------------------------------
  // The prototype's simulation.

  /**
   * The fixed part of the prototype's list: the index case first, infected
   * at step 0, and member k individual number k, drawn from stream(k).
   */
  ghost predicate Roll(pop: seq<Infectee>, stream: nat -> Draws) {
    && |pop| >= 1 && pop[0].infector == null && pop[0].infectionTime == 0
    && (forall k :: 0 <= k < |pop| ==> pop[k].id == k && pop[k].draws == stream(k))
  }

  /** Members are distinct: they carry distinct numbers. */
  lemma RollDistinct(pop: seq<Infectee>, stream: nat -> Draws)
    requires Roll(pop, stream)
    ensures forall i, j :: 0 <= i < j < |pop| ==> pop[i] != pop[j]
  {
  }

  /** Every member k has the path and end times that the draws stream(k) give. */
  ghost predicate Drawn(pop: seq<Infectee>, stream: nat -> Draws) {
    forall k :: 0 <= k < |pop| ==> DrawnFrom(pop, stream, k)
  }

  /** Member k of Drawn. */
  ghost predicate DrawnFrom(pop: seq<Infectee>, stream: nat -> Draws, k: nat)
    requires k < |pop|
  {
    pop[k].BuiltFrom(stream(k))
  }

  /** Newborns built from the next draws keep every member drawn. */
  lemma DrawnNext(pop: seq<Infectee>, kid: seq<Infectee>, stream: nat -> Draws)
    requires Drawn(pop, stream)
    requires forall j :: 0 <= j < |kid| ==> kid[j].BuiltFrom(stream(|pop| + j))
    ensures Drawn(pop + kid, stream)
  {
    forall k | 0 <= k < |pop + kid| ensures DrawnFrom(pop + kid, stream, k) {
      if k < |pop| {
        assert DrawnFrom(pop, stream, k) && (pop + kid)[k] == pop[k];
      } else {
        assert (pop + kid)[k] == kid[k - |pop|];
      }
    }
  }

  /**
   * The steps among x.FirstStep()..t at which the prototype's updates with
   * infect_delta = delta make x spawn, in order: an update spawns when the
   * state its cursor has walked to can infect and more than delta has
   * elapsed since x's latest infection, which is its previous spawn or,
   * before any, its own infection.
   */
  ghost function SpawnTimes(x: Infectee, delta: real, t: int): seq<int>
    requires WellFormed(x.path, x.endTimes)
    decreases if t < x.FirstStep() then 0 else t - x.FirstStep() + 1
  {
    if t < x.FirstStep() then []
    else
      var before := SpawnTimes(x, delta, t - 1);
      if CanInfect(x.path[Walked(x.path, x.endTimes, x.FirstStep(), t)]) && (t - LastSpawn(x, before)) as real > delta
      then before + [t]
      else before
  }

  /** The step of x's latest infection when it has spawned at the steps ts: the last of them, or its own infection step. */
  ghost function LastSpawn(x: Infectee, ts: seq<int>): int {
    if |ts| == 0 then x.infectionTime else ts[|ts| - 1]
  }

  /**
   * The steps ts are steps of x's updates up to t, each one more than delta
   * after its latest infection before it: the previous spawn, or its own
   * infection for the first.
   */
  ghost predicate SpacedSpawns(x: Infectee, delta: real, t: int, ts: seq<int>) {
    && (forall j :: 0 <= j < |ts| ==> x.FirstStep() <= ts[j] <= t)
    && (forall j {:trigger PrevSpawn(x, ts, j)} :: 0 <= j < |ts| ==> (ts[j] - PrevSpawn(x, ts, j)) as real > delta)
  }

  /** The spawn step before entry j of `ts`, or the infection time before the first. */
  ghost function PrevSpawn(x: Infectee, ts: seq<int>, j: nat): int
    requires j < |ts|
  {
    if j == 0 then x.infectionTime else ts[j - 1]
  }

  /** At each of the steps ts, x's updates up to that step leave it in a state that can infect. */
  ghost predicate InfectiousSpawns(x: Infectee, ts: seq<int>)
    requires WellFormed(x.path, x.endTimes)
  {
    forall j :: 0 <= j < |ts| ==> CanInfect(x.path[Walked(x.path, x.endTimes, x.FirstStep(), ts[j])])
  }

  /** Every spawn step up to t is a step of x's updates, spaced by more than delta from the one before. */
  lemma {:induction false} SpawnTimesSpaced(x: Infectee, delta: real, t: int)
    requires WellFormed(x.path, x.endTimes)
    ensures SpacedSpawns(x, delta, t, SpawnTimes(x, delta, t))
    decreases if t < x.FirstStep() then 0 else t - x.FirstStep() + 1
  {
    if t >= x.FirstStep() {
      SpawnTimesSpaced(x, delta, t - 1);
      var before := SpawnTimes(x, delta, t - 1);
      if CanInfect(x.path[Walked(x.path, x.endTimes, x.FirstStep(), t)]) && (t - LastSpawn(x, before)) as real > delta {
        SpacedAppend(x, delta, t, before);
      }
    }
  }

  /** A spawn at step t, more than delta after the latest spawn up to t - 1, keeps the spawn steps spaced up to t. */
  lemma SpacedAppend(x: Infectee, delta: real, t: int, before: seq<int>)
    requires x.FirstStep() <= t && SpacedSpawns(x, delta, t - 1, before) && (t - LastSpawn(x, before)) as real > delta
    ensures SpacedSpawns(x, delta, t, before + [t])
  {
    var ts, n := before + [t], |before|;
    assert PrevSpawn(x, ts, n) == LastSpawn(x, before) by {
      if n > 0 {
        assert ts[n - 1] == before[n - 1];
      }
    }
    forall j {:trigger PrevSpawn(x, ts, j)} | 0 <= j < n ensures PrevSpawn(x, ts, j) == PrevSpawn(x, before, j) {
      if j > 0 {
        assert ts[j - 1] == before[j - 1];
      }
    }
  }

  /** x spawns only at steps where its updates leave it in a state that can infect. */
  lemma {:induction false} SpawnTimesInfectious(x: Infectee, delta: real, t: int)
    requires WellFormed(x.path, x.endTimes)
    ensures InfectiousSpawns(x, SpawnTimes(x, delta, t))
    decreases if t < x.FirstStep() then 0 else t - x.FirstStep() + 1
  {
    if t >= x.FirstStep() {
      SpawnTimesInfectious(x, delta, t - 1);
      var before := SpawnTimes(x, delta, t - 1);
      var ts := before + [t];
      if CanInfect(x.path[Walked(x.path, x.endTimes, x.FirstStep(), t)]) && (t - LastSpawn(x, before)) as real > delta {
        forall j | 0 <= j < |ts| ensures CanInfect(x.path[Walked(x.path, x.endTimes, x.FirstStep(), ts[j])]) {
          if j < |before| {
            assert ts[j] == before[j];
          }
        }
      }
    }
  }

  /** With delta not negative, the spawn steps strictly increase: at most one spawn per step. */
  lemma SpawnTimesIncrease(x: Infectee, delta: real, t: int)
    requires WellFormed(x.path, x.endTimes) && delta >= 0.0
    ensures var ts := SpawnTimes(x, delta, t); forall j, j' :: 0 <= j < j' < |ts| ==> ts[j] < ts[j']
  {
    var ts := SpawnTimes(x, delta, t);
    SpawnTimesSpaced(x, delta, t);
    assert SpacedSpawns(x, delta, t, ts);
    forall j, j' | 0 <= j < j' < |ts| ensures ts[j] < ts[j'] {
      SpawnTimesChain(x, delta, ts, j, j');
    }
  }

  /** Each step of a chain of spawn steps, spaced as SpawnTimesSpaced states, is later than the one before. */
  lemma {:induction false} SpawnTimesChain(x: Infectee, delta: real, ts: seq<int>, j: nat, j': nat)
    requires delta >= 0.0 && j < j' < |ts|
    requires forall k {:trigger PrevSpawn(x, ts, k)} :: 0 <= k < |ts| ==> (ts[k] - PrevSpawn(x, ts, k)) as real > delta
    ensures ts[j] < ts[j']
    decreases j' - j
  {
    assert (ts[j'] - PrevSpawn(x, ts, j')) as real > delta;
    if j < j' - 1 {
      SpawnTimesChain(x, delta, ts, j, j' - 1);
    }
  }

  /** Later steps only add spawn steps: those up to t begin those up to any later t'. */
  lemma {:induction false} SpawnTimesGrow(x: Infectee, delta: real, t: int, t': int)
    requires WellFormed(x.path, x.endTimes) && t <= t'
    ensures var ts := SpawnTimes(x, delta, t); |ts| <= |SpawnTimes(x, delta, t')| && ts == SpawnTimes(x, delta, t')[..|ts|]
    decreases t' - t
  {
    if t < t' {
      SpawnTimesGrow(x, delta, t, t' - 1);
      if t' >= x.FirstStep() {
        var ts := SpawnTimes(x, delta, t' - 1);
        assert SpawnTimes(x, delta, t')[..|ts|] == ts;
      }
    }
  }

  /**
   * Member x's mutable part m records the spawns of its updates up to step
   * t: its latest infection is its last spawn step (its own infection step
   * before any), and its offspring are one child per spawn step, infected
   * at that step.
   */
  ghost predicate Bred(x: Infectee, m: Mark, delta: real, t: int) {
    && WellFormed(x.path, x.endTimes)
    && var ts := SpawnTimes(x, delta, t);
       && m.last == LastSpawn(x, ts) && |m.offspring| == |ts|
       && forall j :: 0 <= j < |ts| ==> m.offspring[j].infectionTime == ts[j]
  }

  /** A newborn of the step at `time` with mutable part m has spawned nothing by then: no time has elapsed since its infection. */
  lemma NewbornBred(x: Infectee, m: Mark, delta: real, time: int)
    requires Newcomer(x, m, time) && WellFormed(x.path, x.endTimes) && time >= 1 && delta >= 0.0
    ensures Bred(x, m, delta, time)
  {
    assert SpawnTimes(x, delta, time - 1) == [];
  }

  /**
   * Member x's update at `time`, from `before` (bred up to time - 1) to
   * `after` with its cursor walked to `time`, spawning `kid` infected then,
   * leaves it bred up to `time`.
   */
  lemma BredNext(x: Infectee, before: Mark, after: Mark, kid: seq<Infectee>, delta: real, time: int)
    requires Bred(x, before, delta, time - 1) && x.infectionTime <= time && time >= 1
    requires after.pos == Walked(x.path, x.endTimes, x.FirstStep(), time)
    requires Spawned(x, before, after, kid, time, delta)
    requires forall j :: 0 <= j < |kid| ==> kid[j].infectionTime == time
    ensures Bred(x, after, delta, time)
  {
    var ts := SpawnTimes(x, delta, time - 1);
    var ts' := SpawnTimes(x, delta, time);
    assert ts' == if |kid| == 1 then ts + [time] else ts;
    forall j | 0 <= j < |ts'| ensures after.offspring[j].infectionTime == ts'[j] {
      if j < |ts| {
        assert after.offspring[j] == before.offspring[j];
      }
    }
  }

  /**
   * Who infected whom, member k having the mutable part marks[k]: every
   * member but the index case is among the offspring of an earlier member,
   * its infector; the offspring of each member are later members that name
   * it as their infector, in the order in which they joined the list.
   */
  ghost predicate Family(pop: seq<Infectee>, marks: seq<Mark>) {
    && |marks| == |pop|
    && (forall k :: 1 <= k < |pop| ==> ChildOf(pop, marks, k))
    && (forall k :: 0 <= k < |pop| ==> ParentOf(pop, marks, k))
  }

  /** Member k of Family: its infector is an earlier member, whose offspring include it. */
  ghost predicate ChildOf(pop: seq<Infectee>, marks: seq<Mark>, k: nat)
    requires k < |pop| && |marks| == |pop|
  {
    var p := pop[k].infector;
    p != null && p.id < k && pop[p.id] == p && pop[k] in marks[p.id].offspring
  }

  /** Member k of Family: its offspring are later members infected by it, in list order. */
  ghost predicate ParentOf(pop: seq<Infectee>, marks: seq<Mark>, k: nat)
    requires k < |pop| && |marks| == |pop|
  {
    var kids := marks[k].offspring;
    && (forall j :: 0 <= j < |kids| ==> kids[j].infector == pop[k] && k < kids[j].id < |pop| && pop[kids[j].id] == kids[j])
    && (forall j, j' :: 0 <= j < j' < |kids| ==> kids[j].id < kids[j'].id)
  }

  /** The number of x's infector, or -1 for the index case. */
  ghost function InfectorId(x: Infectee): int {
    if x.infector == null then -1 else x.infector.id
  }

  /**
   * x joined the list before y: at an earlier step, or at the same step as
   * the child of an earlier member.
   */
  ghost predicate JoinedBefore(x: Infectee, y: Infectee) {
    x.infectionTime < y.infectionTime || (x.infectionTime == y.infectionTime && InfectorId(x) < InfectorId(y))
  }

  /**
   * The list is in order of infection step and, among the newborns of one
   * step, in order of their infectors: the sweep visits the members in list
   * order and appends each child as it is spawned, at most one per member.
   */
  ghost predicate BirthOrder(pop: seq<Infectee>) {
    forall j, k :: 0 <= j < k < |pop| ==> JoinedBefore(pop[j], pop[k])
  }

  /**
   * The list `pop`, member k having the mutable part marks[k], after the
   * steps up to `time` with infect_delta = delta: member k is built from
   * the draws stream(k) and infected by then, and its cursor, latest
   * infection and offspring are what its updates up to `time` give; every
   * member but the index case is the child of an earlier one.
   */
  ghost predicate Settled(pop: seq<Infectee>, marks: seq<Mark>, stream: nat -> Draws, time: int, delta: real) {
    && Roll(pop, stream) && Drawn(pop, stream) && Family(pop, marks) && BirthOrder(pop)
    && forall k :: 0 <= k < |pop| ==> SettledAt(pop, marks, time, delta, k)
  }

  /**
   * Member k of Settled: infected by `time`, with its cursor where its
   * updates up to `time` put it (Walked), and its latest infection and
   * offspring what its spawn steps give (Bred).
   */
  ghost predicate SettledAt(pop: seq<Infectee>, marks: seq<Mark>, time: int, delta: real, k: nat)
    requires k < |pop| && k < |marks|
  {
    && pop[k].infectionTime <= time && WellFormed(pop[k].path, pop[k].endTimes)
    && marks[k].pos == Walked(pop[k].path, pop[k].endTimes, pop[k].FirstStep(), time)
    && Bred(pop[k], marks[k], delta, time)
  }

  /**
   * The prototype's list after the steps up to `time`, with infect_delta =
   * delta, as it stands in the heap; so every cursor is on its path.
   */
  ghost predicate Listed(pop: seq<Infectee>, stream: nat -> Draws, time: int, delta: real)
    reads set x | x in pop
  {
    && Settled(pop, Marks(pop), stream, time, delta)
    && forall k :: 0 <= k < |pop| ==> pop[k].Valid()
  }

  /** A settled list whose mutable parts are those in the heap is listed. */
  lemma SettledListed(pop: seq<Infectee>, marks: seq<Mark>, stream: nat -> Draws, time: int, delta: real)
    requires Settled(pop, marks, stream, time, delta)
    requires forall k :: 0 <= k < |pop| ==> pop[k].Now() == marks[k]
    ensures Listed(pop, stream, time, delta)
  {
    assert Marks(pop) == marks;
    forall k | 0 <= k < |pop| ensures pop[k].Valid() {
      assert SettledAt(pop, marks, time, delta, k);
    }
  }

  /**
   * Every cursor of a listed population is valid and behind the driver's at
   * the same time.
   */
  lemma ListedBehind(pop: seq<Infectee>, stream: nat -> Draws, time: int, delta: real)
    requires Listed(pop, stream, time, delta)
    ensures forall k :: 0 <= k < |pop| ==> pop[k].Valid() && pop[k].BehindAs(pop[k].pos, time)
  {
    forall k | 0 <= k < |pop| ensures pop[k].Valid() && pop[k].BehindAs(pop[k].pos, time) {
      assert SettledAt(pop, Marks(pop), time, delta, k);
      WalkedBehind(pop[k].path, pop[k].endTimes, pop[k].FirstStep(), time);
    }
  }

  /**
   * The family tree of a listed population: member m is among the
   * offspring of member k exactly when it names k as its infector, and is
   * then a later member; the offspring of k are in the order in which they
   * joined the list, one per spawn step of k, infected at that step, and
   * k's latest infection is its last spawn step.
   */
  lemma ListedOffspring(pop: seq<Infectee>, stream: nat -> Draws, time: int, delta: real)
    requires Listed(pop, stream, time, delta)
    ensures forall k, m :: 0 <= k < |pop| && 0 <= m < |pop| ==>
      (pop[m] in pop[k].offspring <==> pop[m].infector == pop[k])
    ensures forall k, m :: 0 <= k < |pop| && 0 <= m < |pop| && pop[m] in pop[k].offspring ==> k < m
    ensures forall k, j, j' :: 0 <= k < |pop| && 0 <= j < j' < |pop[k].offspring| ==>
      pop[k].offspring[j].id < pop[k].offspring[j'].id
    ensures forall k :: 0 <= k < |pop| ==> (WellFormed(pop[k].path, pop[k].endTimes) &&
      var ts := SpawnTimes(pop[k], delta, time);
      && |pop[k].offspring| == |ts| && pop[k].lastInfection == LastSpawn(pop[k], ts)
      && forall j :: 0 <= j < |ts| ==> pop[k].offspring[j].infectionTime == ts[j])
  {
    var marks := Marks(pop);
    forall k, m | 0 <= k < |pop| && 0 <= m < |pop|
      ensures (pop[m] in pop[k].offspring <==> pop[m].infector == pop[k])
      ensures pop[m] in pop[k].offspring ==> k < m
    {
      assert ParentOf(pop, marks, k);
      if pop[m] in pop[k].offspring {
        var j :| 0 <= j < |marks[k].offspring| && marks[k].offspring[j] == pop[m];
        assert pop[pop[m].id] == pop[m] && pop[m].id == m;
      }
      if pop[m].infector == pop[k] && m > 0 {
        assert ChildOf(pop, marks, m) && pop[k].id == k;
      }
    }
    forall k, j, j' | 0 <= k < |pop| && 0 <= j < j' < |pop[k].offspring|
      ensures pop[k].offspring[j].id < pop[k].offspring[j'].id
    {
      assert ParentOf(pop, marks, k) && marks[k] == pop[k].Now();
    }
    forall k | 0 <= k < |pop|
      ensures WellFormed(pop[k].path, pop[k].endTimes) &&
        var ts := SpawnTimes(pop[k], delta, time);
        && |pop[k].offspring| == |ts| && pop[k].lastInfection == LastSpawn(pop[k], ts)
        && forall j :: 0 <= j < |ts| ==> pop[k].offspring[j].infectionTime == ts[j]
    {
      assert SettledAt(pop, marks, time, delta, k) && marks[k] == pop[k].Now();
    }
  }

  /**
   * Midway through the sweep of step `time`, member k having the mutable
   * part marks[k]: every member is infected by `time`; the members before i
   * have had their update at `time`, the others only those up to time - 1
   * (a newborn of this step none yet).
   */
  ghost predicate Walks(pop: seq<Infectee>, marks: seq<Mark>, stream: nat -> Draws, time: int, i: nat) {
    && Roll(pop, stream) && |marks| == |pop|
    && forall k :: 0 <= k < |pop| ==> WalkedAt(pop, marks, time, i, k)
  }

  /** Member k of Walks: infected by `time`, and its cursor where its updates so far put it. */
  ghost predicate WalkedAt(pop: seq<Infectee>, marks: seq<Mark>, time: int, i: nat, k: nat)
    requires k < |pop| && k < |marks|
  {
    && pop[k].infectionTime <= time && WellFormed(pop[k].path, pop[k].endTimes)
    && marks[k].pos == Walked(pop[k].path, pop[k].endTimes, pop[k].FirstStep(), if k < i then time else time - 1)
  }

  /**
   * Member i's update at `time` moves its cursor to `after`; a child it
   * returns is the next individual, built from the next draws and infected
   * at `time`, and joins the list with its cursor at the start.
   */
  lemma WalksNext(pop: seq<Infectee>, marks: seq<Mark>, kid: seq<Infectee>, stream: nat -> Draws, time: int, i: nat, after: Mark)
    requires time >= 1 && Walks(pop, marks, stream, time, i) && i < |pop| && WalkedAt(pop, marks, time, i, i)
    requires after.pos == StepOnce(pop[i].path, pop[i].endTimes, marks[i].pos, time as real)
    requires |kid| <= 1
    requires forall j :: 0 <= j < |kid| ==>
      kid[j].id == |pop| && kid[j].draws == stream(|pop|) && kid[j].BuiltFrom(stream(|pop|)) && kid[j].infectionTime == time
    ensures Walks(pop + kid, marks[i := after] + (if kid == [] then [] else [Mark(0, time, [])]), stream, time, i + 1)
  {
    var pop', marks' := pop + kid, marks[i := after] + (if kid == [] then [] else [Mark(0, time, [])]);
    var i' := i + 1;
    forall k | 0 <= k < |pop'| ensures WalkedAt(pop', marks', time, i', k) {
      if k < |pop| {
        assert WalkedAt(pop, marks, time, i, k) && pop'[k] == pop[k];
        if k == i {
          var x := pop[i];
          assert Walked(x.path, x.endTimes, x.FirstStep(), time)
              == StepOnce(x.path, x.endTimes, Walked(x.path, x.endTimes, x.FirstStep(), time - 1), time as real);
        } else {
          assert marks'[k] == marks[k];
        }
      } else {
        BuiltWellFormed(stream(|pop|), time as real);
        assert pop'[k] == kid[0] && kid[0].FirstStep() == time && marks'[k] == Mark(0, time, []);
      }
    }
  }

  /**
   * Member x, whose mutable part went from `before` to `after` in its
   * update at `time`, spawned `kid`: one child exactly when its new state
   * can infect and more than delta has elapsed since its latest infection,
   * appended to its offspring and infected by x; its latest infection moved
   * to `time` exactly when it spawned.
   */
  ghost predicate Spawned(x: Infectee, before: Mark, after: Mark, kid: seq<Infectee>, time: int, delta: real)
    requires after.pos < |x.path|
  {
    && after.offspring == before.offspring + kid
    && |kid| == (if CanInfect(x.path[after.pos]) && (time - before.last) as real > delta then 1 else 0)
    && after.last == (if |kid| == 1 then time else before.last)
    && forall j :: 0 <= j < |kid| ==> kid[j].infector == x
  }

  /** What the updates of each member of `pop` change, as it stands now. */
  ghost function Marks(pop: seq<Infectee>): (r: seq<Mark>)
    reads set x | x in pop
    ensures |r| == |pop| && forall k :: 0 <= k < |pop| ==> r[k] == pop[k].Now()
  {
    seq(|pop|, k requires 0 <= k < |pop| reads pop => pop[k].Now())
  }

  /** A list that has walked to `time - 1` is where the sweep at `time` starts. */
  lemma ListedMarks(pop: seq<Infectee>, stream: nat -> Draws, time: int, delta: real)
    requires Listed(pop, stream, time - 1, delta)
    ensures Walks(pop, Marks(pop), stream, time, 0)
  {
    var marks := Marks(pop);
    forall k | 0 <= k < |pop| ensures WalkedAt(pop, marks, time, 0, k) {
      assert SettledAt(pop, marks, time - 1, delta, k);
    }
  }

  /**
   * When the sweep at `time` has visited every member, each one has walked
   * to `time`: a member that was there before the step moved one StepOnce
   * on from where it stood at `time - 1`, and a newborn infected at `time`
   * moved one StepOnce from the start of its course.
   */
  lemma {:induction false} WalksDone(
    pop: seq<Infectee>, marks0: seq<Mark>, marks: seq<Mark>, stream: nat -> Draws, time: int, n: nat)
    requires time >= 1 && Walks(pop, marks, stream, time, |pop|) && n <= |pop|
    requires Walks(pop[..n], marks0, stream, time, 0)
    requires forall k :: n <= k < |pop| ==> pop[k].infectionTime == time
    ensures forall k :: 0 <= k < |pop| ==>
      && pop[k].infectionTime <= time && WellFormed(pop[k].path, pop[k].endTimes)
      && marks[k].pos == Walked(pop[k].path, pop[k].endTimes, pop[k].FirstStep(), time)
    ensures forall k :: 0 <= k < n ==>
      && WellFormed(pop[k].path, pop[k].endTimes) && marks0[k].pos < |pop[k].path|
      && marks[k].pos == StepOnce(pop[k].path, pop[k].endTimes, marks0[k].pos, time as real)
    ensures forall k :: n <= k < |pop| ==>
      && WellFormed(pop[k].path, pop[k].endTimes) && 0 < |pop[k].path|
      && marks[k].pos == StepOnce(pop[k].path, pop[k].endTimes, 0, time as real)
  {
    forall k | 0 <= k < |pop|
      ensures && pop[k].infectionTime <= time && WellFormed(pop[k].path, pop[k].endTimes)
              && marks[k].pos == Walked(pop[k].path, pop[k].endTimes, pop[k].FirstStep(), time)
              && (k < n ==>
                    marks0[k].pos < |pop[k].path|
                    && marks[k].pos == StepOnce(pop[k].path, pop[k].endTimes, marks0[k].pos, time as real))
              && (n <= k ==>
                    0 < |pop[k].path|
                    && marks[k].pos == StepOnce(pop[k].path, pop[k].endTimes, 0, time as real))
    {
      var x := pop[k];
      assert WalkedAt(pop, marks, time, |pop|, k);
      if k < n {
        assert WalkedAt(pop[..n], marks0, time, 0, k) && pop[..n][k] == x;
        assert Walked(x.path, x.endTimes, x.FirstStep(), time)
            == StepOnce(x.path, x.endTimes, Walked(x.path, x.endTimes, x.FirstStep(), time - 1), time as real);
      } else {
        assert x.FirstStep() == time && Walked(x.path, x.endTimes, time, time - 1) == 0;
      }
    }
  }

  /** A newborn of the step at `time` with mutable part m: infected then, its latest infection then, no offspring. */
  ghost predicate Newcomer(x: Infectee, m: Mark, time: int) {
    x.infectionTime == time && m.last == time && m.offspring == []
  }

  /**
   * Midway through a sweep over the list `infected`, now `pop`, with
   * members 0..i-1 updated: the list is the original one followed by the
   * children kids[k] of the original members k updated so far, in member
   * order.
   */
  ghost predicate Grown(infected: seq<Infectee>, pop: seq<Infectee>, kids: seq<seq<Infectee>>, i: nat) {
    var n := |infected|;
    && i <= |pop| && |kids| == (if i < n then i else n)
    && pop == infected + Flatten(kids) && |pop| <= n + |kids|
  }

  /** Updating member i appends its child, if any; only original members have children here. */
  lemma GrownNext(infected: seq<Infectee>, pop: seq<Infectee>, kids: seq<seq<Infectee>>, i: nat, kid: seq<Infectee>)
    requires Grown(infected, pop, kids, i) && i < |pop| && |kid| <= 1
    requires i >= |infected| ==> kid == []
    ensures Grown(infected, pop + kid, if i < |infected| then kids + [kid] else kids, i + 1)
  {
    if i < |infected| {
      FlattenSnoc(infected, kids, kid);
    }
  }

  /**
   * The original members 0..|kids|-1, whose mutable parts went from
   * marks0[k] to marks[k], spawned kids[k]; the later original members are
   * untouched.
   */
  ghost predicate Spawning(
    infected: seq<Infectee>, marks0: seq<Mark>, marks: seq<Mark>, kids: seq<seq<Infectee>>, time: int, delta: real)
  {
    var n := |infected|;
    && |marks0| == n && |kids| <= n && |marks| >= n
    && (forall k :: 0 <= k < |kids| ==> SpawnedAt(infected, marks0, marks, kids, time, delta, k))
    && (forall k :: |kids| <= k < n ==> marks[k] == marks0[k])
  }

  /** Member k of Spawning: it spawned kids[k] in going from marks0[k] to marks[k]. */
  ghost predicate SpawnedAt(
    infected: seq<Infectee>, marks0: seq<Mark>, marks: seq<Mark>, kids: seq<seq<Infectee>>, time: int, delta: real, k: nat)
    requires k < |infected| && k < |marks0| && k < |marks| && k < |kids|
  {
    marks[k].pos < |infected[k].path| && Spawned(infected[k], marks0[k], marks[k], kids[k], time, delta)
  }

  /** Member i's update, from marks[i] to `after`, spawning `kid`, adds one more spawning member. */
  lemma SpawningNext(
    infected: seq<Infectee>, marks0: seq<Mark>, marks: seq<Mark>, kids: seq<seq<Infectee>>, i: nat,
    time: int, delta: real, kid: seq<Infectee>, after: Mark, extra: seq<Mark>)
    requires Spawning(infected, marks0, marks, kids, time, delta) && i < |marks|
    requires |kids| == (if i < |infected| then i else |infected|)
    requires i < |infected| ==> after.pos < |infected[i].path| && Spawned(infected[i], marks[i], after, kid, time, delta)
    ensures Spawning(infected, marks0, marks[i := after] + extra, if i < |infected| then kids + [kid] else kids, time, delta)
  {
    var marks', kids' := marks[i := after] + extra, if i < |infected| then kids + [kid] else kids;
    forall k | 0 <= k < |kids'| ensures SpawnedAt(infected, marks0, marks', kids', time, delta, k) {
      if k < |kids| {
        assert SpawnedAt(infected, marks0, marks, kids, time, delta, k);
        assert marks'[k] == marks[k] && kids'[k] == kids[k];
      } else {
        assert k == i && marks0[k] == marks[i] && marks'[k] == after && kids'[k] == kid;
      }
    }
  }

  /** The members from n on, with mutable parts marks[k], are newcomers of the step at `time`. */
  ghost predicate Newcomers(pop: seq<Infectee>, marks: seq<Mark>, n: nat, time: int) {
    && |marks| == |pop| && n <= |pop|
    && forall k :: n <= k < |pop| ==> Newcomer(pop[k], marks[k], time)
  }

  /**
   * A newcomer spawns nothing in the step of its birth, because no time has
   * elapsed since its infection; a child appended is a newcomer.
   */
  lemma NewcomersNext(
    pop: seq<Infectee>, marks: seq<Mark>, n: nat, i: nat, time: int, delta: real, kid: seq<Infectee>, after: Mark)
    requires Newcomers(pop, marks, n, time) && i < |pop| && delta >= 0.0
    requires after.pos < |pop[i].path| && Spawned(pop[i], marks[i], after, kid, time, delta)
    requires forall j :: 0 <= j < |kid| ==> Newcomer(kid[j], Mark(0, time, []), time)
    ensures i >= n ==> kid == []
    ensures Newcomers(pop + kid, marks[i := after] + (if kid == [] then [] else [Mark(0, time, [])]), n, time)
  {
    var pop', marks' := pop + kid, marks[i := after] + (if kid == [] then [] else [Mark(0, time, [])]);
    forall k | n <= k < |pop'| ensures Newcomer(pop'[k], marks'[k], time) {
      if k == i {
        assert Newcomer(pop[i], marks[i], time);
      } else if k < |pop| {
        assert pop'[k] == pop[k] && marks'[k] == marks[k];
      } else {
        assert pop'[k] == kid[0] && marks'[k] == Mark(0, time, []);
      }
    }
  }

  /**
   * The sweep at `time` over the list `infected`, now `pop`, with members
   * 0..i-1 visited: the list has grown by the children of the original
   * members visited, every member is drawn from its own draws and has walked
   * as far as its turn allows, the original members visited spawned what
   * their updates give, and the members from |infected| on are newcomers.
   */
  ghost predicate SweptTo(
    infected: seq<Infectee>, pop: seq<Infectee>, marks0: seq<Mark>, marks: seq<Mark>, kids: seq<seq<Infectee>>,
    i: nat, time: int, delta: real, stream: nat -> Draws)
  {
    && Grown(infected, pop, kids, i)
    && Walks(pop, marks, stream, time, i) && Drawn(pop, stream)
    && Spawning(infected, marks0, marks, kids, time, delta)
    && Newcomers(pop, marks, |infected|, time)
  }

  /**
   * After the sweep at `time`, with infect_delta = delta not negative, the
   * list is settled at `time` if it was settled at time - 1 before: the
   * original members went one step on, and the newborns are the children of
   * the step.
   */
  lemma SweepSettled(
    infected: seq<Infectee>, pop: seq<Infectee>, marks0: seq<Mark>, marks: seq<Mark>, kids: seq<seq<Infectee>>,
    stream: nat -> Draws, time: int, delta: real)
    requires time >= 1 && delta >= 0.0 && Settled(infected, marks0, stream, time - 1, delta)
    requires SweptTo(infected, pop, marks0, marks, kids, |pop|, time, delta, stream)
    requires forall k :: 0 <= k < |pop| ==>
      WellFormed(pop[k].path, pop[k].endTimes) && marks[k].pos == Walked(pop[k].path, pop[k].endTimes, pop[k].FirstStep(), time)
    ensures Settled(pop, marks, stream, time, delta)
  {
    var n := |infected|;
    FamilyGrown(infected, pop, marks0, marks, kids, stream, time, delta);
    OrderGrown(infected, pop, marks0, marks, kids, stream, time, delta);
    forall k | 0 <= k < |pop| ensures SettledAt(pop, marks, time, delta, k) {
      assert WalkedAt(pop, marks, time, |pop|, k);
      if k < n {
        assert SettledAt(infected, marks0, time - 1, delta, k) && SpawnedAt(infected, marks0, marks, kids, time, delta, k);
        assert pop[k] == infected[k];
        forall j | 0 <= j < |kids[k]| ensures kids[k][j].infectionTime == time {
          var m := KidAt(infected, pop, kids, k, j);
          assert Newcomer(pop[m], marks[m], time);
        }
        BredNext(infected[k], marks0[k], marks[k], kids[k], delta, time);
      } else {
        assert Newcomer(pop[k], marks[k], time);
        NewbornBred(pop[k], marks[k], delta, time);
      }
    }
  }

  /**
   * After the sweep the list is still in birth order: the newborns of the
   * step come after the earlier members, and in the order of their
   * infectors, since each member spawned at most one of them.
   */
  lemma OrderGrown(
    infected: seq<Infectee>, pop: seq<Infectee>, marks0: seq<Mark>, marks: seq<Mark>, kids: seq<seq<Infectee>>,
    stream: nat -> Draws, time: int, delta: real)
    requires Settled(infected, marks0, stream, time - 1, delta)
    requires SweptTo(infected, pop, marks0, marks, kids, |pop|, time, delta, stream)
    ensures BirthOrder(pop)
  {
    var n := |infected|;
    assert |kids| == n && pop == infected + Flatten(kids);
    forall j, k | 0 <= j < k < |pop| ensures JoinedBefore(pop[j], pop[k]) {
      if k < n {
        assert pop[j] == infected[j] && pop[k] == infected[k];
      } else if j < n {
        assert pop[j] == infected[j] && SettledAt(infected, marks0, time - 1, delta, j);
        assert Newcomer(pop[k], marks[k], time);
      } else {
        var i, m, i', m' := FlattenOrder(kids, j - n, k - n);
        assert SpawnedAt(infected, marks0, marks, kids, time, delta, i);
        assert SpawnedAt(infected, marks0, marks, kids, time, delta, i');
        assert pop[j] == kids[i][m] && pop[k] == kids[i'][m'];
        assert InfectorId(pop[j]) == i && InfectorId(pop[k]) == i';
        assert Newcomer(pop[j], marks[j], time) && Newcomer(pop[k], marks[k], time);
      }
    }
  }

  /** Child j of original member k is a member of the grown list past the original ones. */
  lemma KidAt(infected: seq<Infectee>, pop: seq<Infectee>, kids: seq<seq<Infectee>>, k: nat, j: nat) returns (m: nat)
    requires pop == infected + Flatten(kids) && k < |kids| && j < |kids[k]|
    ensures |infected| <= m < |pop| && pop[m] == kids[k][j]
  {
    var f := FlattenAt(kids, k, j);
    m := |infected| + f;
  }

  /**
   * After the sweep, who infected whom: each original member's offspring
   * are its old ones followed by the children it spawned, which follow the
   * original members in the list, and the newborns have none yet.
   */
  lemma FamilyGrown(
    infected: seq<Infectee>, pop: seq<Infectee>, marks0: seq<Mark>, marks: seq<Mark>, kids: seq<seq<Infectee>>,
    stream: nat -> Draws, time: int, delta: real)
    requires Family(infected, marks0)
    requires SweptTo(infected, pop, marks0, marks, kids, |pop|, time, delta, stream)
    ensures Family(pop, marks)
  {
    var n := |infected|;
    assert |kids| == n && |marks| == |pop|;
    forall k | 1 <= k < |pop| ensures ChildOf(pop, marks, k) {
      if k < n {
        assert ChildOf(infected, marks0, k) && pop[k] == infected[k];
        var i := infected[k].infector.id;
        assert SpawnedAt(infected, marks0, marks, kids, time, delta, i) && pop[i] == infected[i];
        assert marks[i].offspring == marks0[i].offspring + kids[i];
      } else {
        var i, m := FlattenPart(kids, k - n);
        assert pop[k] == kids[i][m];
        assert SpawnedAt(infected, marks0, marks, kids, time, delta, i) && pop[i] == infected[i];
        assert marks[i].offspring == marks0[i].offspring + kids[i] && marks[i].offspring[|marks0[i].offspring| + m] == pop[k];
      }
    }
    forall k | 0 <= k < |pop| ensures ParentOf(pop, marks, k) {
      if k < n {
        assert ParentOf(infected, marks0, k) && pop[k] == infected[k];
        assert SpawnedAt(infected, marks0, marks, kids, time, delta, k);
        var old_, new_ := marks0[k].offspring, kids[k];
        assert marks[k].offspring == old_ + new_;
        forall j | 0 <= j < |new_|
          ensures new_[j].infector == pop[k] && k < new_[j].id < |pop| && pop[new_[j].id] == new_[j] && n <= new_[j].id
        {
          var m := KidAt(infected, pop, kids, k, j);
          assert pop[m].id == m;
        }
        forall j | 0 <= j < |old_| ensures pop[old_[j].id] == old_[j] {
          assert infected[old_[j].id] == old_[j];
        }
      } else {
        assert Newcomer(pop[k], marks[k], time);
      }
    }
  }

  /**
   * The outcome of the sweep at `time` over the list `infected`, now `pop`,
   * the mutable parts having gone from marks0 to marks: the list is settled
   * at `time` and is the original one followed by the children kids[k] of
   * each original member k in member order; each original member moved one
   * StepOnce and spawned kids[k], and each newborn is a newcomer that moved
   * one StepOnce from the start of its course.
   */
  ghost predicate SweepDone(
    infected: seq<Infectee>, pop: seq<Infectee>, marks0: seq<Mark>, marks: seq<Mark>, kids: seq<seq<Infectee>>,
    stream: nat -> Draws, time: int, delta: real)
  {
    && |marks| == |pop| && |kids| == |infected| == |marks0| && pop == infected + Flatten(kids)
    && (forall k :: 0 <= k < |infected| ==> SteppedAt(infected, marks0, marks, kids, time, delta, k))
    && (forall k :: |infected| <= k < |pop| ==> BornAt(pop, marks, time, k))
  }

  /** Original member k of SweepDone: one StepOnce on from marks0[k], spawning kids[k]. */
  ghost predicate SteppedAt(
    infected: seq<Infectee>, marks0: seq<Mark>, marks: seq<Mark>, kids: seq<seq<Infectee>>, time: int, delta: real, k: nat)
    requires k < |infected| && k < |marks0| && k < |marks| && k < |kids|
  {
    var x := infected[k];
    && WellFormed(x.path, x.endTimes) && marks0[k].pos < |x.path|
    && marks[k].pos == StepOnce(x.path, x.endTimes, marks0[k].pos, time as real)
    && Spawned(x, marks0[k], marks[k], kids[k], time, delta)
  }

  /** Newborn k of SweepDone: a newcomer of the step, one StepOnce on from the start. */
  ghost predicate BornAt(pop: seq<Infectee>, marks: seq<Mark>, time: int, k: nat)
    requires k < |pop| && k < |marks|
  {
    var x := pop[k];
    && Newcomer(x, marks[k], time) && WellFormed(x.path, x.endTimes) && 0 < |x.path|
    && marks[k].pos == StepOnce(x.path, x.endTimes, 0, time as real)
  }

  /**
   * When the member loop of the sweep at `time` has visited every member of
   * a list settled at time - 1, the sweep is done.
   */
  lemma SweepCompleted(
    infected: seq<Infectee>, pop: seq<Infectee>, marks0: seq<Mark>, marks: seq<Mark>, kids: seq<seq<Infectee>>,
    stream: nat -> Draws, time: int, delta: real)
    requires time >= 1 && delta >= 0.0
    requires Settled(infected, marks0, stream, time - 1, delta)
    requires SweptTo(infected, pop, marks0, marks, kids, |pop|, time, delta, stream)
    ensures Settled(pop, marks, stream, time, delta)
    ensures SweepDone(infected, pop, marks0, marks, kids, stream, time, delta)
  {
    var n := |infected|;
    forall k | 0 <= k < n ensures WalkedAt(infected, marks0, time, 0, k) {
      assert SettledAt(infected, marks0, time - 1, delta, k);
    }
    assert pop[..n] == infected;
    WalksDone(pop, marks0, marks, stream, time, n);
    SweepSettled(infected, pop, marks0, marks, kids, stream, time, delta);
    forall k | 0 <= k < n ensures SteppedAt(infected, marks0, marks, kids, time, delta, k) {
      assert pop[k] == infected[k] && SpawnedAt(infected, marks0, marks, kids, time, delta, k);
    }
    forall k | n <= k < |pop| ensures BornAt(pop, marks, time, k) {
      assert Newcomer(pop[k], marks[k], time);
    }
  }

  /** Before its first visit, the sweep at `time` of a list that has walked to `time - 1` has nothing to show. */
  lemma SweepStarts(infected: seq<Infectee>, stream: nat -> Draws, time: int, delta: real)
    requires Listed(infected, stream, time - 1, delta)
    ensures Walks(infected, Marks(infected), stream, time, 0)
    ensures SweptTo(infected, infected, Marks(infected), Marks(infected), [], 0, time, delta, stream)
  {
    ListedMarks(infected, stream, time, delta);
    assert infected + Flatten<Infectee>([]) == infected;
  }

  /**
   * Runs the prototype for steps 1..nIter with infect_delta = mean infectious
   * period / R0, starting from the index case infected at step 0, and
   * counts the final state of every individual: entry c is how many
   * individuals end in state number c, so the entries sum to the final
   * population size (CountsTotal).
   */
  method Simulate(r0: real, meanInfectious: real, nIter: int, stream: nat -> Draws)
    returns (counters: array<int>, ghost pop: seq<Infectee>)
    requires r0 > 0.0 && meanInfectious >= 0.0
    ensures Listed(pop, stream, if nIter > 0 then nIter else 0, meanInfectious / r0)
    ensures counters.Length == NumStates
    ensures forall c :: 0 <= c < NumStates ==> counters[c] == Count(StatesOf(pop), FromIndex(c))
  {
    var infectDelta := meanInfectious / r0;
    var infected := Run(infectDelta, nIter, stream);
    pop := infected;
    ListedBehind(pop, stream, if nIter > 0 then nIter else 0, infectDelta);
    ghost var ss := StatesOf(infected);
    counters := Tally(infected, ss);
    assert Listed(pop, stream, if nIter > 0 then nIter else 0, infectDelta);
  }

  /** The list holding only the index case, fresh at step 0, is listed at step 0. */
  lemma IndexListed(first: Infectee, stream: nat -> Draws, delta: real)
    requires first.Newborn(null, 0, stream(0)) && first.id == 0
    ensures Listed([first], stream, 0, delta)
  {
    BuiltWellFormed(stream(0), 0.0);
    assert SpawnTimes(first, delta, 0) == [];
    assert SettledAt([first], Marks([first]), 0, delta, 0);
  }

  /**
   * The time loop of the prototype: the index case infected at step 0, then
   * one sweep for each step 1..nIter.
   */
  method Run(infectDelta: real, nIter: int, stream: nat -> Draws) returns (infected: seq<Infectee>)
    requires infectDelta >= 0.0
    ensures Listed(infected, stream, if nIter > 0 then nIter else 0, infectDelta)
  {
    var time := 0;
    var first := new Infectee(null, time, stream(0), 0);
    infected := [first];
    IndexListed(first, stream, infectDelta);
    while time < nIter
      invariant time == 0 || 0 < time <= nIter
      invariant Listed(infected, stream, time, infectDelta)
      invariant forall x :: x in infected ==> fresh(x)
      decreases nIter - time
    {
      time := time + 1;
      ghost var kids;
      infected, kids := Sweep(infected, time, infectDelta, stream);
    }
  }

  /** The final count: entry c is how many members of `pop` are in state number c. */
  method Tally(pop: seq<Infectee>, ghost ss: seq<State>) returns (counters: array<int>)
    requires |ss| == |pop| && forall k :: 0 <= k < |pop| ==> pop[k].Valid() && ss[k] == pop[k].Status()
    ensures counters.Length == NumStates
    ensures forall c :: 0 <= c < NumStates ==> counters[c] == Count(ss, FromIndex(c))
  {
    counters := new int[NumStates](_ => 0);
    var j := 0;
    while j < |pop|
      invariant j <= |pop|
      invariant forall c :: 0 <= c < NumStates ==> counters[c] == Count(ss[..j], FromIndex(c))
    {
      var s := pop[j].Status();
      assert s == ss[j];
      IndexBijective(s, s);
      Bump(counters, Index(s), s, ss[..j]);
      PrefixSnoc(ss, j);
      j := j + 1;
    }
    assert ss[..j] == ss;
  }

  /** Extending a prefix by one element. */
  lemma PrefixSnoc<T>(s: seq<T>, j: nat)
    requires j < |s|
    ensures s[..j + 1] == s[..j] + [s[j]]
  {
  }

  /** One count of the final tally: column c, the column of state s, goes up by one. */
  method Bump(counters: array<int>, c: nat, ghost s: State, ghost counted: seq<State>)
    requires counters.Length == NumStates && c < NumStates && FromIndex(c) == s
    requires forall c :: 0 <= c < NumStates ==> counters[c] == Count(counted, FromIndex(c))
    modifies counters
    ensures forall c :: 0 <= c < NumStates ==> counters[c] == Count(counted + [s], FromIndex(c))
  {
    CountSnoc(counted, s);
    counters[c] := counters[c] + 1;
    forall c' | 0 <= c' < NumStates && c' != c ensures FromIndex(c') != s {
      assert Index(FromIndex(c')) != Index(FromIndex(c));
    }
  }

  /**
   * One step of the prototype at `time`: updates the list members in order,
   * appending each returned child to the list so that it is updated later
   * in the same step. Member k moves its cursor by one StepOnce and spawns
   * kids[k]; the newborns, joined in member order, end the list. A
   * newborn's latest infection is `time` and infect_delta is not negative,
   * so newborns do not spawn in their first step, and the sweep ends; their
   * cursor moves by one StepOnce from the start.
   */
  method Sweep(infected: seq<Infectee>, time: int, infectDelta: real, stream: nat -> Draws)
    returns (infected': seq<Infectee>, ghost kids: seq<seq<Infectee>>)
    requires infectDelta >= 0.0 && time >= 1 && Listed(infected, stream, time - 1, infectDelta)
    modifies set x | x in infected
    ensures Listed(infected', stream, time, infectDelta)
    ensures |kids| == |infected| && infected' == infected + Flatten(kids)
    ensures forall k :: 0 <= k < |infected| ==>
      infected[k].pos == StepOnce(infected[k].path, infected[k].endTimes, old(infected[k].pos), time as real)
    ensures forall k :: 0 <= k < |infected| ==>
      Spawned(infected[k], old(infected[k].Now()), infected[k].Now(), kids[k], time, infectDelta)
    ensures forall k :: |infected| <= k < |infected'| ==>
      && fresh(infected'[k]) && Newcomer(infected'[k], infected'[k].Now(), time)
      && infected'[k].pos == StepOnce(infected'[k].path, infected'[k].endTimes, 0, time as real)
    ensures forall x :: x in infected' ==> x in infected || fresh(x)
  {
    var n := |infected|;
    ghost var settled := Settled(infected, Marks(infected), stream, time - 1, infectDelta);
    ghost var marks0, marks;
    infected', marks0, marks, kids := SweepVisits(infected, time, infectDelta, stream);
    SweepCompleted(infected, infected', marks0, marks, kids, stream, time, infectDelta);
    SettledListed(infected', marks, stream, time, infectDelta);
    forall k | 0 <= k < n
      ensures && infected[k].pos == StepOnce(infected[k].path, infected[k].endTimes, old(infected[k].pos), time as real)
              && Spawned(infected[k], old(infected[k].Now()), infected[k].Now(), kids[k], time, infectDelta)
    {
      assert infected[k] == infected'[k] && infected[k].Now() == marks[k] && old(infected[k].Now()) == marks0[k];
      ghost var stepped := SteppedAt(infected, marks0, marks, kids, time, infectDelta, k);
    }
    forall k | n <= k < |infected'|
      ensures && fresh(infected'[k]) && Newcomer(infected'[k], infected'[k].Now(), time)
              && infected'[k].pos == StepOnce(infected'[k].path, infected'[k].endTimes, 0, time as real)
    {
      assert infected'[k].Now() == marks[k];
      ghost var born := BornAt(infected', marks, time, k);
      assert infected'[k].id == k && forall j :: 0 <= j < n ==> infected[j].id == j;
      assert infected'[k] !in infected;
    }
  }

  /** Every member of `pop` holds the matching entry of `marks`. */
  ghost predicate Tracked(pop: seq<Infectee>, marks: seq<Mark>)
    reads set x | x in pop
  {
    |pop| == |marks| && forall k :: 0 <= k < |pop| ==> pop[k].Now() == marks[k]
  }

  /**
   * The member loop of Sweep: every member, the newborns included, is
   * visited once in list order, and the sweep's invariants hold for the
   * whole list.
   */
  method SweepVisits(infected: seq<Infectee>, time: int, infectDelta: real, stream: nat -> Draws)
    returns (infected': seq<Infectee>, ghost marks0: seq<Mark>, ghost marks: seq<Mark>, ghost kids: seq<seq<Infectee>>)
    requires infectDelta >= 0.0 && time >= 1 && Listed(infected, stream, time - 1, infectDelta)
    modifies set x | x in infected
    ensures marks0 == old(Marks(infected))
    ensures SweptTo(infected, infected', marks0, marks, kids, |infected'|, time, infectDelta, stream)
    ensures Tracked(infected', marks)
    ensures forall x :: x in infected' ==> x in infected || fresh(x)
  {
    var n := |infected|;
    marks0 := Marks(infected);
    marks := marks0;
    SweepStarts(infected, stream, time, infectDelta);
    infected' := infected;
    kids := [];
    var i := 0;
    while i < |infected'|
      invariant i <= |infected'|
      invariant SweptTo(infected, infected', marks0, marks, kids, i, time, infectDelta, stream)
      invariant Tracked(infected', marks)
      invariant forall x :: x in infected' ==> x in infected || fresh(x)
      decreases 2 * n - i
    {
      infected', marks, kids := SweepNext(infected, infected', marks0, marks, kids, i, time, infectDelta, stream);
      i := i + 1;
    }
  }

  /**
   * One iteration of the sweep with the ghost record it keeps: member i of
   * the list is visited, and every invariant of the sweep moves on to the
   * next member.
   */
  method SweepNext(
    infected: seq<Infectee>, pop: seq<Infectee>, ghost marks0: seq<Mark>, ghost marks: seq<Mark>,
    ghost kids: seq<seq<Infectee>>, i: nat, time: int, infectDelta: real, stream: nat -> Draws)
    returns (pop': seq<Infectee>, ghost marks': seq<Mark>, ghost kids': seq<seq<Infectee>>)
    requires infectDelta >= 0.0 && time >= 1 && i < |pop|
    requires SweptTo(infected, pop, marks0, marks, kids, i, time, infectDelta, stream)
    requires Tracked(pop, marks)
    modifies pop[i]
    ensures SweptTo(infected, pop', marks0, marks', kids', i + 1, time, infectDelta, stream)
    ensures Tracked(pop', marks')
    ensures forall x :: x in pop' ==> x in pop || fresh(x)
  {
    var n, x := |infected|, pop[i];
    assert x.Now() == marks[i] && WalkedAt(pop, marks, time, i, i);
    ghost var kid;
    pop', kid := Visit(pop, i, time, infectDelta, stream);
    ghost var after := x.Now();
    ghost var extra := if kid == [] then [] else [Mark(0, time, [])];
    NewcomersNext(pop, marks, n, i, time, infectDelta, kid, after);
    GrownNext(infected, pop, kids, i, kid);
    WalksNext(pop, marks, kid, stream, time, i, after);
    DrawnNext(pop, kid, stream);
    if i < n {
      assert pop[i] == infected[i];
    }
    SpawningNext(infected, marks0, marks, kids, i, time, infectDelta, kid, after, extra);
    marks' := marks[i := after] + extra;
    forall k | 0 <= k < |pop'| ensures pop'[k].Now() == marks'[k] {
      if k < |pop| && k != i {
        assert pop'[k].id == k != x.id;
      }
    }
    kids' := if i < n then kids + [kid] else kids;
  }

  /**
   * One iteration of the sweep: updates member i at `time` and appends the
   * child it returns, if any, which is the next individual.
   */
  method Visit(pop: seq<Infectee>, i: nat, time: int, infectDelta: real, stream: nat -> Draws)
    returns (pop': seq<Infectee>, ghost kid: seq<Infectee>)
    requires i < |pop| && pop[i].Valid()
    modifies pop[i]
    ensures pop' == pop + kid && |kid| <= 1
    ensures pop[i].Valid() && pop[i].pos == StepOnce(pop[i].path, pop[i].endTimes, old(pop[i].pos), time as real)
    ensures Spawned(pop[i], old(pop[i].Now()), pop[i].Now(), kid, time, infectDelta)
    ensures forall j :: 0 <= j < |kid| ==>
      fresh(kid[j]) && kid[j].Newborn(pop[i], time, stream(|pop|)) && kid[j].id == |pop|
  {
    var child := pop[i].Update(time, infectDelta, stream(|pop|), |pop|);
    if child != null {
      pop', kid := pop + [child], [child];
    } else {
      pop', kid := pop, [];
    }
  }

  /** The current states of the members of `pop`, in list order. */
  ghost function StatesOf(pop: seq<Infectee>): seq<State>
    reads set x | x in pop
    requires forall k :: 0 <= k < |pop| ==> pop[k].Valid()
  {
    seq(|pop|, k requires 0 <= k < |pop| && pop[k].Valid() reads set x | x in pop => pop[k].Status())
  }

  /** The sum of a sequence of counts. */
  function Total(s: seq<int>): int {
    if s == [] then 0 else Total(s[..|s| - 1]) + s[|s| - 1]
  }

  /**
   * A count vector holding, in each column, the count of that state among
   * `ss` sums to |ss|: every individual is counted in exactly one column.
   */
  lemma CountsTotal(s: seq<int>, ss: seq<State>)
    requires |s| == NumStates && forall c :: 0 <= c < NumStates ==> s[c] == Count(ss, FromIndex(c))
    ensures Total(s) == |ss|
  {
    TotalPrefix(s, ss, NumStates);
    assert s[..NumStates] == s;
    CountsSumToSize(ss);
  }

  lemma {:induction false} TotalPrefix(s: seq<int>, ss: seq<State>, n: nat)
    requires |s| == NumStates && n <= NumStates
    requires forall c :: 0 <= c < NumStates ==> s[c] == Count(ss, FromIndex(c))
    ensures Total(s[..n]) == CountBelow(ss, n)
  {
    if n > 0 {
      TotalPrefix(s, ss, n - 1);
      assert s[..n][..n - 1] == s[..n - 1];
    }
  }
}
