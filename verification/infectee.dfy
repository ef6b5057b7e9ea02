/**
 * One infected individual: it fixes its whole state path and end-time
 * table when it is created, and each update moves its state cursor forward
 * and, while infectious, spawns one child per whole `infectDelta` elapsed
 * since its last infection.
 */
module Individual {
  import opened Optional
  import opened States
  import opened Course

  class Infectee {
    /** Who infected this individual (null for the index case); never changes. */
    const infector: Infectee?
    /** When this individual was infected; never changes. */
    const infectionTime: real
    /** Creation number: how many individuals were created before this one. */
    ghost const id: nat

    /** The states this individual goes through, in order; fixed at creation. */
    const path: seq<State>
    /** Absolute end time of each state, by state number (None when never left); fixed at creation. */
    const endTimes: seq<Option<real>>
    /** Cursor into `path`: the current state is path[pos]. */
    var pos: nat
    /** Time of the latest infection caused by this individual. */
    var timeLastInfection: real
    /** The individuals this one infected, in order of infection. */
    var offspring: seq<Infectee>

    ghost predicate Valid()
      reads this
    {
      WellFormed(path, endTimes) && pos < |path|
    }

    /** The path and end-time table are the ones the draws `d` give. */
    ghost predicate BuiltFrom(d: Draws) {
      path == Path(d) && endTimes == EndTimes(d, infectionTime)
    }

    /**
     * Where the cursor of this individual belongs after the updates up to
     * time t: settled from the start when infected before t, still at the
     * start when infected at t.
     */
    ghost function CursorAt(t: real): (r: nat)
      requires Shaped(path, endTimes)
      ensures r < |path|
    {
      if infectionTime < t then Settle(path, endTimes, 0, t) else 0
    }

    /** The state of this individual after the updates up to time t. */
    ghost function StateAt(t: real): State
      requires Shaped(path, endTimes)
    {
      path[CursorAt(t)]
    }

    /** A later time never puts the cursor further back. */
    lemma CursorMonotone(t1: real, t2: real)
      requires Shaped(path, endTimes) && t1 <= t2
      ensures CursorAt(t1) <= CursorAt(t2)
    {
      if infectionTime < t1 {
        SettleMonotone(path, endTimes, 0, t1, t2);
      }
    }

    /**
     * The last infection time has moved on from the infection time by one
     * `delta` per child: every child was spawned by one step of the
     * infection loop.
     */
    ghost predicate Paced(delta: real)
      reads this
    {
      timeLastInfection == infectionTime + |offspring| as real * delta
    }

    /** Infected by time t, and p is where time t puts the cursor. */
    ghost predicate SettledAs(p: nat, t: real) {
      Shaped(path, endTimes) && infectionTime <= t && p == CursorAt(t)
    }

    /** Infected by time t, with its cursor where time t puts it. */
    ghost predicate Settled(t: real)
      reads this
    {
      SettledAs(pos, t)
    }

    /** Freshly created by `parent` at `time` from draws `d`, and not updated since. */
    ghost predicate Newborn(parent: Infectee?, time: real, d: Draws)
      reads this
    {
      && BuiltFrom(d) && Shaped(path, endTimes)
      && infector == parent && infectionTime == time
      && pos == 0 && timeLastInfection == time && offspring == []
    }

    /**
     * Creates individual number `id`, infected by `infector` at
     * `infectionTime`, from the draws `d`: its path and end-time table are
     * fixed here.
     */
    constructor (infector: Infectee?, infectionTime: real, d: Draws, ghost id: nat)
      ensures Newborn(infector, infectionTime, d) && this.id == id
    {
      this.infector := infector;
      this.infectionTime := infectionTime;
      this.id := id;
      var trajectory := [Latent];
      var ends: seq<Option<real>> := [None, None, None, None, None, None, None, None];
      var latentPeriod := d.latentPeriod;
      var incubationFactor := d.incubationFactor;
      if incubationFactor > 1.0 {
        trajectory := trajectory + [SymptomsNonInfectious];
        ends := ends[0 := Some(latentPeriod)][1 := Some(incubationFactor * latentPeriod)];
      } else {
        trajectory := trajectory + [LatentInfectious];
        ends := ends[0 := Some(incubationFactor * latentPeriod)][2 := Some(latentPeriod)];
      }
      trajectory := trajectory + [Symptoms];
      var twoPeriods := latentPeriod + d.infectiousPeriod;
      ends := ends[3 := Some(twoPeriods)];
      var timeEnd: real;
      if d.recovers {
        trajectory := trajectory + [Recovering, Recovered];
        assert Index(trajectory[3]) == 4;
        timeEnd := twoPeriods + d.finalPeriod;
      } else {
        trajectory := trajectory + [Dying, Dead];
        assert Index(trajectory[3]) == 5;
        timeEnd := twoPeriods + d.finalPeriod;
      }
      ends := ends[Index(trajectory[3]) := Some(timeEnd)];
      ghost var relative := ends;
      ends := Shift(ends, infectionTime);
      this.path := trajectory;
      this.endTimes := ends;
      pos := 0;
      timeLastInfection := infectionTime;
      offspring := [];
      new;
      EndTimesListed(d, 0.0);
      assert incubationFactor * latentPeriod == Incubation(d);
      if incubationFactor > 1.0 {
        if d.recovers {
          assert relative == [Some(latentPeriod), Some(Incubation(d)), None, Some(twoPeriods), Some(timeEnd), None, None, None];
          assert relative == EndTimes(d, 0.0);
        } else {
          assert relative == [Some(latentPeriod), Some(Incubation(d)), None, Some(twoPeriods), None, Some(timeEnd), None, None];
          assert relative == EndTimes(d, 0.0);
        }
      } else {
        if d.recovers {
          assert relative == [Some(Incubation(d)), None, Some(latentPeriod), Some(twoPeriods), Some(timeEnd), None, None, None];
          assert relative == EndTimes(d, 0.0);
        } else {
          assert relative == [Some(Incubation(d)), None, Some(latentPeriod), Some(twoPeriods), None, Some(timeEnd), None, None];
          assert relative == EndTimes(d, 0.0);
        }
      }
      EndTimesShifted(d, infectionTime);
      assert path == Path(d);
    }

    /** The current state. */
    function Status(): (s: State)
      reads this
      requires Valid()
      ensures s in path && (IsTerminal(s) <==> pos == 4)
    {
      path[pos]
    }

    /** The number of the current state. */
    function IStatus(): (i: nat)
      reads this
      requires Valid()
      ensures i < NumStates && FromIndex(i) == Status()
    {
      IndexBijective(Status(), Status());
      Index(Status())
    }

    /** The display name of the current state: the one name that belongs to it and to no other state. */
    function StatusName(): (n: string)
      reads this
      requires Valid()
      ensures forall s :: Name(s) == n <==> s == Status()
    {
      forall s | Name(s) == Name(Status()) ensures s == Status() {
        NamesDistinct(s, Status());
      }
      Name(Status())
    }

    /** Whether this individual can infect others now: state number 2 or 3. */
    function CanInfectNow(): (b: bool)
      reads this
      requires Valid()
      ensures b <==> IStatus() == 2 || IStatus() == 3
    {
      CanInfectByIndex(Status());
      CanInfect(Status())
    }

    /** Whether this case counts as reported: state number neither 0 nor 2. */
    function IsReportedNow(): (b: bool)
      reads this
      requires Valid()
      ensures b <==> IStatus() != 0 && IStatus() != 2
    {
      IsReportedByIndex(Status());
      IsReported(Status())
    }

    /** End time of the current state; unset exactly in the terminal state. */
    function TimeNext(): (e: Option<real>)
      reads this
      requires Valid()
      ensures e.None? <==> IsTerminal(Status())
    {
      endTimes[Index(Status())]
    }

    /** The number of individuals this one has infected. */
    function NumInfected(): nat
      reads this
    {
      |offspring|
    }

    /** Records `other` as infected by this individual. */
    method Infect(other: Infectee) returns (r: Infectee)
      modifies this
      ensures r == other
      ensures offspring == old(offspring) + [other] && NumInfected() == old(NumInfected()) + 1
      ensures pos == old(pos) && timeLastInfection == old(timeLastInfection)
    {
      offspring := offspring + [other];
      r := other;
    }

    /**
     * Moves the cursor forward while the current state's end time has
     * passed; then, if the individual was infectious at the start or in any
     * state it passed through, spawns a child at `time` for every whole
     * `infectDelta` elapsed since the last infection. The k-th child is
     * individual number next + k, built from stream(next + k).
     */
    method Update(time: real, infectDelta: real, stream: nat -> Draws, next: nat) returns (children: seq<Infectee>)
      requires Valid() && infectDelta > 0.0
      modifies this
      ensures UpdatedTo(this, time, infectDelta, children)
      ensures NumInfected() == old(NumInfected()) + |children|
      ensures forall k :: 0 <= k < |children| ==>
        fresh(children[k]) && children[k].Newborn(this, time, stream(next + k)) && children[k].id == next + k
    {
      children := [];
      var spawning := CanInfectNow();
      while Passed(endTimes, Status(), time)
        invariant Valid() && old(pos) <= pos
        invariant offspring == old(offspring) && timeLastInfection == old(timeLastInfection)
        invariant Settle(path, endTimes, pos, time) == Settle(path, endTimes, old(pos), time)
        invariant spawning == InfectiousBetween(path, old(pos), pos)
        decreases |path| - pos
      {
        pos := pos + 1;
        spawning := spawning || CanInfectNow();
      }
      if spawning {
        children := Spawn(time, infectDelta, stream, next);
      }
    }

    /**
     * The infection loop of an update: while more than `infectDelta` has
     * elapsed since the last infection, moves the last infection time on by
     * `infectDelta` and records a new individual infected at `time`.
     */
    method Spawn(time: real, infectDelta: real, stream: nat -> Draws, next: nat) returns (children: seq<Infectee>)
      requires Valid() && infectDelta > 0.0
      modifies this
      ensures Valid() && pos == old(pos)
      ensures offspring == old(offspring) + children
      ensures |children| == Spawns(time - old(timeLastInfection), infectDelta)
      ensures timeLastInfection == Advanced(old(timeLastInfection), |children|, infectDelta)
      ensures forall k :: 0 <= k < |children| ==>
        fresh(children[k]) && children[k].Newborn(this, time, stream(next + k)) && children[k].id == next + k
    {
      children := [];
      while time - timeLastInfection > infectDelta
        invariant Valid() && pos == old(pos)
        invariant offspring == old(offspring) + children
        invariant timeLastInfection == Advanced(old(timeLastInfection), |children|, infectDelta)
        invariant |children| + Spawns(time - timeLastInfection, infectDelta)
                  == Spawns(time - old(timeLastInfection), infectDelta)
        invariant forall k :: 0 <= k < |children| ==> fresh(children[k])
        invariant forall k :: 0 <= k < |children| ==> children[k].Newborn(this, time, stream(next + k))
        invariant forall k :: 0 <= k < |children| ==> children[k].id == next + k
        decreases Spawns(time - timeLastInfection, infectDelta)
      {
        ghost var gap := time - timeLastInfection;
        assert Spawns(gap, infectDelta) == 1 + Spawns(gap - infectDelta, infectDelta);
        var child := InfectAt(time, infectDelta, stream(next + |children|), next + |children|);
        children := children + [child];
      }
    }

    /**
     * One iteration of the infection loop: the last infection time moves on
     * by `infectDelta` and a new individual, infected by this one at `time`
     * and built from draws `d`, is appended to the offspring as individual
     * number `id`.
     */
    method InfectAt(time: real, infectDelta: real, d: Draws, ghost id: nat) returns (child: Infectee)
      requires Valid()
      modifies this
      ensures Valid() && pos == old(pos)
      ensures timeLastInfection == old(timeLastInfection) + infectDelta
      ensures offspring == old(offspring) + [child]
      ensures fresh(child) && child.Newborn(this, time, d) && child.id == id
    {
      timeLastInfection := timeLastInfection + infectDelta;
      child := new Infectee(this, time, d, id);
      var _ := Infect(child);
    }
  }

  /**
   * What one update at `time` did to `x`: the cursor settled at `time`, and `children` appended to the offspring;
   * if x was infectious at the start or passed through an infectious state,
   * there are exactly Spawns(time - last infection) children and the last
   * infection time moved by that many `delta` steps, otherwise none.
   */
  twostate predicate UpdatedTo(x: Infectee, time: real, delta: real, new children: seq<Infectee>)
    requires delta > 0.0
    reads x
  {
    && old(x.Valid()) && x.Valid()
    && old(x.pos) <= x.pos
    && x.pos == Settle(x.path, x.endTimes, old(x.pos), time)
    && x.offspring == old(x.offspring) + children
    && (if InfectiousBetween(x.path, old(x.pos), x.pos)
        then |children| == Spawns(time - old(x.timeLastInfection), delta)
             && x.timeLastInfection == Advanced(old(x.timeLastInfection), |children|, delta)
        else children == [] && x.timeLastInfection == old(x.timeLastInfection))
  }
}
