/**
 * The outbreak driver: starting from one individual infected at time 0, it
 * runs fixed time steps up to the horizon. Each step updates exactly the
 * individuals present at its start, in creation order, and appends the
 * newborns after the sweep. On reporting steps it adds each swept
 * individual's status to one row of an integer count table. It stops early
 * once the population exceeds the cap. Afterwards it estimates the
 * reproduction number from the individuals past their infectious states.
 */
module Driver {
  import opened Optional
  import opened Lists
  import opened States
  import opened Course
  import opened Individual
  import opened Schedule

  // ---------------------------------------------------------------------
  // The population.

  /** Member k of `pop` was built from the draws of individual number base + k. */
  ghost predicate DrawnAt(pop: seq<Infectee>, k: nat, base: nat, stream: nat -> Draws)
    requires k < |pop|
  {
    pop[k].BuiltFrom(stream(base + k))
  }

  /** The number of x's infector, or -1 for the index case. */
  ghost function InfectorId(x: Infectee): int {
    if x.infector == null then -1 else x.infector.id
  }

  /**
   * x joined the population no later than y: at an earlier step, or at the
   * same step as a child of the same or an earlier member.
   */
  ghost predicate JoinedBefore(x: Infectee, y: Infectee) {
    x.infectionTime < y.infectionTime || (x.infectionTime == y.infectionTime && InfectorId(x) <= InfectorId(y))
  }

  /** Every member before member k joined the population no later than it. */
  ghost predicate InOrderAt(pop: seq<Infectee>, k: nat)
    requires k < |pop|
  {
    forall j :: 0 <= j < k ==> JoinedBefore(pop[j], pop[k])
  }

  /** The number of individual m of `offs`. */
  ghost function IdAt(offs: seq<Infectee>, m: nat): nat
    requires m < |offs|
  {
    offs[m].id
  }

  /** The individuals of `offs` carry strictly increasing numbers, all below n. */
  ghost predicate AscendingBelow(offs: seq<Infectee>, n: nat) {
    && (forall m, m' {:trigger IdAt(offs, m), IdAt(offs, m')} :: 0 <= m < m' < |offs| ==> IdAt(offs, m) < IdAt(offs, m'))
    && (forall m {:trigger IdAt(offs, m)} :: 0 <= m < |offs| ==> IdAt(offs, m) < n)
  }

  /** Member k of `pop`, infected by time t, has its cursor where time t puts it. */
  ghost predicate SettledAt(pop: seq<Infectee>, k: nat, t: real)
    requires k < |pop|
    reads pop[k]
  {
    pop[k].Settled(t)
  }

  /**
   * Entry k of `counted` is the state of member k of `pop`, infected before
   * time t, after the updates up to t.
   */
  ghost predicate CountedAt(counted: seq<State>, pop: seq<Infectee>, k: nat, t: real)
    requires k < |counted| && k < |pop|
  {
    Shaped(pop[k].path, pop[k].endTimes) && pop[k].infectionTime < t && counted[k] == pop[k].StateAt(t)
  }

  /** Member k of `pop` was infected by an earlier member. */
  ghost predicate HasInfector(pop: seq<Infectee>, k: nat)
    requires k < |pop|
  {
    var p := pop[k].infector;
    p != null && p.id < k && pop[p.id] == p
  }

  /**
   * What never changes about a population: the index case first, member k
   * individual number k built from stream(k), and the members in order of
   * infection time and, among the newborns of one step, of infector.
   */
  ghost predicate Roster(pop: seq<Infectee>, stream: nat -> Draws) {
    && |pop| >= 1 && pop[0].infector == null && pop[0].infectionTime == 0.0
    && (forall k :: 0 <= k < |pop| ==> pop[k].id == k)
    && (forall k :: 0 <= k < |pop| ==> DrawnAt(pop, k, 0, stream) && InOrderAt(pop, k))
  }

  /** Newborn j of `born` is individual number base + j, built from its draws and infected at `time`. */
  ghost predicate Numbered(born: seq<Infectee>, base: nat, stream: nat -> Draws, time: real) {
    && (forall j :: 0 <= j < |born| ==> born[j].id == base + j && born[j].infectionTime == time)
    && (forall j :: 0 <= j < |born| ==> DrawnAt(born, j, base, stream))
  }

  /** Every offspring of member k names it as infector and sits at its own number in `all`. */
  ghost predicate Linked(pop: seq<Infectee>, k: nat, all: seq<Infectee>)
    requires k < |pop|
    reads pop[k]
  {
    forall m :: 0 <= m < |pop[k].offspring| ==>
      var c := pop[k].offspring[m];
      c.infector == pop[k] && c.id < |all| && all[c.id] == c
  }

  /** The offspring of member k carry strictly increasing numbers, all below |pop|. */
  ghost predicate Ascends(pop: seq<Infectee>, k: nat)
    requires k < |pop|
    reads pop[k]
  {
    AscendingBelow(pop[k].offspring, |pop|)
  }

  /** Appending more individuals after `born` keeps every link of member k. */
  lemma LinkedGrow(pop: seq<Infectee>, k: nat, born: seq<Infectee>, more: seq<Infectee>)
    requires k < |pop| && Linked(pop, k, pop + born)
    ensures Linked(pop, k, pop + (born + more))
  {
    var all, all' := pop + born, pop + (born + more);
    forall m | 0 <= m < |pop[k].offspring| ensures all'[pop[k].offspring[m].id] == all[pop[k].offspring[m].id] {
      var c := pop[k].offspring[m];
      if c.id < |pop| {
        assert all[c.id] == pop[c.id] == all'[c.id];
      } else {
        assert all[c.id] == born[c.id - |pop|] == all'[c.id];
      }
    }
  }

  /** Member k of `pop` is among the offspring of its infector. */
  ghost predicate Adopted(pop: seq<Infectee>, k: nat)
    requires k < |pop| && pop[k].infector != null
    reads pop[k].infector
  {
    pop[k] in pop[k].infector.offspring
  }

  /**
   * The population after the steps up to time t: its roster, every member's
   * cursor where time t puts it, its last infection one `delta` on per
   * child, every offspring of a member a member that names it as infector,
   * the offspring in increasing order of number, so none twice, and every
   * member but the index case infected by an earlier member and among its
   * offspring: no one joins the population but as someone's child.
   */
  ghost predicate Population(pop: seq<Infectee>, stream: nat -> Draws, delta: real, t: real)
    reads set x | x in pop
  {
    && Roster(pop, stream)
    && (forall k :: 0 <= k < |pop| ==> SettledAt(pop, k, t) && pop[k].Paced(delta))
    && (forall k :: 0 <= k < |pop| ==> Linked(pop, k, pop) && Ascends(pop, k))
    && (forall k :: 1 <= k < |pop| ==> HasInfector(pop, k) && Adopted(pop, k))
  }

  /** No individual occurs twice in a population: members carry distinct numbers. */
  lemma PopulationDistinct(pop: seq<Infectee>, stream: nat -> Draws)
    requires Roster(pop, stream)
    ensures forall i, j :: 0 <= i < j < |pop| ==> pop[i] != pop[j]
  {
  }

  /** `pop` starts with `start`: individuals are only ever appended. */
  ghost predicate Extends(pop: seq<Infectee>, start: seq<Infectee>) {
    |start| <= |pop| && pop[..|start|] == start
  }

  /** Appending to a population that starts with `start` keeps it first. */
  lemma ExtendsAppend(pop: seq<Infectee>, start: seq<Infectee>, more: seq<Infectee>)
    requires Extends(pop, start)
    ensures Extends(pop + more, start)
  {
    assert (pop + more)[..|start|] == pop[..|start|];
  }

  /**
   * Newborn j of `born` is not yet updated: its cursor at the start, no
   * offspring, and its last infection at its own infection.
   */
  ghost predicate Untouched(born: seq<Infectee>)
    reads set x | x in born
  {
    forall j :: 0 <= j < |born| ==>
      && Shaped(born[j].path, born[j].endTimes) && born[j].pos == 0 && born[j].offspring == []
      && born[j].timeLastInfection == born[j].infectionTime
  }

  /**
   * How many children x spawns in the update at `time` that follows the one
   * at `last`, when it has `before` children: one per whole `delta` elapsed
   * since its last infection (Spawns) if it was infectious where the update
   * at `last` left it or in any state this update moves it through, none
   * otherwise.
   */
  ghost function StepSpawns(x: Infectee, last: real, time: real, before: nat, delta: real): nat
    requires Shaped(x.path, x.endTimes) && last <= time && delta > 0.0
  {
    x.CursorMonotone(last, time);
    if InfectiousBetween(x.path, x.CursorAt(last), x.CursorAt(time))
    then Spawns(time - (x.infectionTime + before as real * delta), delta)
    else 0
  }

  /**
   * Member x before its update in the sweep that follows the step at
   * `last`: settled at `last`, paced, and with offspring `before`.
   */
  ghost predicate Pending(x: Infectee, before: seq<Infectee>, last: real, delta: real)
    reads x
  {
    x.SettledAs(x.pos, last) && x.Paced(delta) && x.offspring == before
  }

  /**
   * Member x after its update at `time` in the sweep that follows the step
   * at `last`: settled at `time`, paced, and its offspring `before`
   * followed by the `kid` it spawned, StepSpawns of them, each infected by x.
   */
  ghost predicate Swept(x: Infectee, before: seq<Infectee>, kid: seq<Infectee>, last: real, time: real, delta: real)
    reads x
  {
    && last <= time && delta > 0.0
    && x.SettledAs(x.pos, time) && x.Paced(delta) && x.offspring == before + kid
    && |kid| == StepSpawns(x, last, time, |before|, delta)
    && forall j :: 0 <= j < |kid| ==> kid[j].infector == x
  }

  /**
   * Midway through the sweep that follows the step at `last`: members
   * before i are swept at `time` with children kids[k], the others still
   * pending; `before` holds every member's offspring at the start.
   */
  ghost predicate SweptUpTo(pop: seq<Infectee>, before: seq<seq<Infectee>>, kids: seq<seq<Infectee>>, i: nat,
                            last: real, time: real, delta: real)
    reads set x | x in pop
  {
    && i <= |pop| == |before| && |kids| == i
    && (forall k :: 0 <= k < i ==> Swept(pop[k], before[k], kids[k], last, time, delta))
    && (forall k :: i <= k < |pop| ==> Pending(pop[k], before[k], last, delta))
  }

  /**
   * The newborns `born` of a sweep so far: every offspring of a member sits
   * at its own number among the members and `born`, and the newborns are
   * numbered after the members and not yet updated.
   */
  ghost predicate Nursery(pop: seq<Infectee>, born: seq<Infectee>, stream: nat -> Draws, time: real)
    reads set x | x in pop, set x | x in born
  {
    && (forall k :: 0 <= k < |pop| ==> Linked(pop, k, pop + born))
    && Numbered(born, |pop|, stream, time) && Untouched(born)
  }

  /** `counted` holds the states after the update at t of the first i members of `pop`. */
  ghost predicate CountedUpTo(counted: seq<State>, pop: seq<Infectee>, i: nat, t: real) {
    |counted| == i <= |pop| && forall k :: 0 <= k < i ==> CountedAt(counted, pop, k, t)
  }

  /** Counting the state of member i after the first i keeps the count of the first i + 1. */
  lemma CountedNext(counted: seq<State>, pop: seq<Infectee>, i: nat, t: real)
    requires CountedUpTo(counted, pop, i, t) && i < |pop|
    requires Shaped(pop[i].path, pop[i].endTimes) && pop[i].infectionTime < t
    ensures CountedUpTo(counted + [pop[i].StateAt(t)], pop, i + 1, t)
  {
    var counted' := counted + [pop[i].StateAt(t)];
    forall k | 0 <= k < i + 1 ensures CountedAt(counted', pop, k, t) {
      if k < i {
        assert counted'[k] == counted[k] && CountedAt(counted, pop, k, t);
      }
    }
  }

  /** Row `row` of `a` holds, per column, the count of that state among `counted`. */
  ghost predicate RowCounts(a: array2<int>, row: nat, counted: seq<State>)
    reads a
  {
    row < a.Length0 && a.Length1 == NumStates
    && forall c :: 0 <= c < NumStates ==> a[row, c] == Count(counted, FromIndex(c))
  }

  /**
   * How many children x has spawned in the updates of steps 1..j, each
   * update spawning StepSpawns from where the previous one left it; steps
   * before x was infected spawn nothing (SpawnedBeforeInfection).
   */
  ghost function SpawnedBy(x: Infectee, p: Params, j: nat): nat
    requires Runnable(p) && Shaped(x.path, x.endTimes)
  {
    if j == 0 then 0
    else
      var before := SpawnedBy(x, p, j - 1);
      StepTimeIncreasing(p, j - 1, j);
      before + StepSpawns(x, StepTime(p, j - 1), StepTime(p, j), before, p.infectDelta)
  }

  /**
   * The infection times of the children x has spawned in the updates of
   * steps 1..j, in order: each update adds its StepSpawns children, all
   * infected at the time of its step.
   */
  ghost function BirthTimes(x: Infectee, p: Params, j: nat): (ts: seq<real>)
    requires Runnable(p) && Shaped(x.path, x.endTimes)
    ensures |ts| == SpawnedBy(x, p, j)
  {
    if j == 0 then []
    else
      StepTimeIncreasing(p, j - 1, j);
      var n := StepSpawns(x, StepTime(p, j - 1), StepTime(p, j), SpawnedBy(x, p, j - 1), p.infectDelta);
      BirthTimes(x, p, j - 1) + seq(n, _ => StepTime(p, j))
  }

  /**
   * Child m of x after steps 1..j was spawned by the update of the first
   * step s that left x with more than m children, and infected at its time.
   */
  lemma {:induction false} BirthTimesAt(x: Infectee, p: Params, j: nat, m: nat) returns (s: nat)
    requires Runnable(p) && Shaped(x.path, x.endTimes) && m < SpawnedBy(x, p, j)
    ensures 1 <= s <= j && SpawnedBy(x, p, s - 1) <= m < SpawnedBy(x, p, s)
    ensures BirthTimes(x, p, j)[m] == StepTime(p, s)
  {
    var before := SpawnedBy(x, p, j - 1);
    if m < before {
      s := BirthTimesAt(x, p, j - 1, m);
      assert BirthTimes(x, p, j)[m] == BirthTimes(x, p, j - 1)[m];
    } else {
      s := j;
    }
  }

  /** The infection times of the individuals `xs`, in order. */
  ghost function TimesOf(xs: seq<Infectee>): (ts: seq<real>)
    ensures |ts| == |xs| && forall m :: 0 <= m < |xs| ==> ts[m] == xs[m].infectionTime
  {
    seq(|xs|, m requires 0 <= m < |xs| => xs[m].infectionTime)
  }

  /** Member k of a population has dues[k] offspring, with offs[k] its offspring. */
  ghost predicate Tallied(offs: seq<seq<Infectee>>, dues: seq<nat>) {
    |dues| == |offs| && forall k :: 0 <= k < |offs| ==> |offs[k]| == dues[k]
  }

  /** births[k] lists the infection times of offs[k], member k's offspring, in order. */
  ghost predicate Dated(offs: seq<seq<Infectee>>, births: seq<seq<real>>) {
    |births| == |offs| && forall k :: 0 <= k < |offs| ==> TimesOf(offs[k]) == births[k]
  }

  /** births[k] is what steps 1..s give member k of `pop` (see BirthTimes). */
  ghost predicate Scheduled(pop: seq<Infectee>, births: seq<seq<real>>, p: Params, s: nat) {
    Runnable(p) && |births| == |pop| && forall k :: 0 <= k < |pop| ==> ScheduledAt(pop, births, p, s, k)
  }

  /** births[k] is what steps 1..s give member k of `pop`. */
  ghost predicate ScheduledAt(pop: seq<Infectee>, births: seq<seq<real>>, p: Params, s: nat, k: nat)
    requires Runnable(p) && k < |pop| && k < |births|
  {
    Shaped(pop[k].path, pop[k].endTimes) && births[k] == BirthTimes(pop[k], p, s)
  }

  /** The offspring infection times after a sweep: each member's grow by its children's; newborns have none. */
  ghost function BirthsAfter(births: seq<seq<real>>, kids: seq<seq<Infectee>>, newborns: nat): (r: seq<seq<real>>)
    requires |kids| == |births|
    ensures |r| == |births| + newborns
    ensures forall k :: 0 <= k < |births| ==> r[k] == births[k] + TimesOf(kids[k])
    ensures forall k :: |births| <= k < |r| ==> r[k] == []
  {
    seq(|births|, k requires 0 <= k < |births| => births[k] + TimesOf(kids[k])) + seq(newborns, _ => [])
  }

  /**
   * After the sweep of step s + 1 each member's offspring infection times
   * are those of steps 1..s followed by one StepTime(p, s + 1) per child of
   * this step, and the newborns have none.
   */
  lemma ScheduledNext(pop: seq<Infectee>, births: seq<seq<real>>, dues: seq<nat>, kids: seq<seq<Infectee>>,
                      born: seq<Infectee>, stream: nat -> Draws, p: Params, s: nat)
    requires Scheduled(pop, births, p, s) && Due(pop, dues, p, s)
    requires Sprouted(pop, dues, kids, StepTime(p, s), StepTime(p, s + 1), p.infectDelta)
    requires Roster(pop + born, stream) && born == Flatten(kids)
    requires forall j :: 0 <= j < |born| ==> born[j].infectionTime == StepTime(p, s + 1)
    ensures Scheduled(pop + born, BirthsAfter(births, kids, |born|), p, s + 1)
  {
    var all, births', s' := pop + born, BirthsAfter(births, kids, |born|), s + 1;
    DueNext(pop, dues, kids, born, stream, p, s);
    forall k | 0 <= k < |all| ensures ScheduledAt(all, births', p, s', k) {
      if k < |pop| {
        forall m | 0 <= m < |kids[k]| ensures kids[k][m].infectionTime == StepTime(p, s + 1) {
          var n := FlattenAt(kids, k, m);
        }
        assert all[k] == pop[k] && ScheduledAt(pop, births, p, s, k);
        BirthTimesNext(pop[k], p, s, kids[k]);
      } else {
        assert all[k] == born[k - |pop|];
      }
    }
  }

  /** The children spawned in the update of step s + 1 were infected at its time. */
  lemma BirthTimesNext(x: Infectee, p: Params, s: nat, kid: seq<Infectee>)
    requires Runnable(p) && Shaped(x.path, x.endTimes)
    requires |kid| == StepSpawns(x, StepTime(p, s), StepTime(p, s + 1), SpawnedBy(x, p, s), p.infectDelta)
    requires forall m :: 0 <= m < |kid| ==> kid[m].infectionTime == StepTime(p, s + 1)
    ensures BirthTimes(x, p, s + 1) == BirthTimes(x, p, s) + TimesOf(kid)
  {
    assert TimesOf(kid) == seq(|kid|, _ => StepTime(p, s + 1));
  }

  /** The offspring lists after a sweep: each member's grow by its children; newborns have none. */
  ghost function OffspringAfter(offs: seq<seq<Infectee>>, kids: seq<seq<Infectee>>, newborns: nat): (r: seq<seq<Infectee>>)
    requires |kids| == |offs|
    ensures |r| == |offs| + newborns
    ensures forall k :: 0 <= k < |offs| ==> r[k] == offs[k] + kids[k]
    ensures forall k :: |offs| <= k < |r| ==> r[k] == []
  {
    seq(|offs|, k requires 0 <= k < |offs| => offs[k] + kids[k]) + seq(newborns, _ => [])
  }

  /**
   * After the sweep the offspring counts and infection times of each member
   * grow by those of its children, and the newborns have none.
   */
  lemma DatedNext(offs: seq<seq<Infectee>>, dues: seq<nat>, births: seq<seq<real>>, kids: seq<seq<Infectee>>, newborns: nat)
    requires Tallied(offs, dues) && Dated(offs, births) && |kids| == |offs|
    ensures Tallied(OffspringAfter(offs, kids, newborns), DuesAfter(dues, kids, newborns))
    ensures Dated(OffspringAfter(offs, kids, newborns), BirthsAfter(births, kids, newborns))
  {
    var offs', births' := OffspringAfter(offs, kids, newborns), BirthsAfter(births, kids, newborns);
    forall k | 0 <= k < |offs| ensures TimesOf(offs'[k]) == births'[k] {
      assert TimesOf(offs[k] + kids[k]) == TimesOf(offs[k]) + TimesOf(kids[k]);
    }
  }

  /**
   * The growth of `pop`, whose offspring lists are `offs`, after steps 1..s:
   * member k has the dues[k] offspring those steps give it (see SpawnedBy),
   * infected at the times births[k] they give (see BirthTimes).
   */
  ghost predicate Grew(pop: seq<Infectee>, offs: seq<seq<Infectee>>, dues: seq<nat>, births: seq<seq<real>>, p: Params, s: nat) {
    && Runnable(p) && |offs| == |pop| && |dues| == |pop| && |births| == |pop|
    && forall k :: 0 <= k < |pop| ==> GrewAt(pop, offs, dues, births, p, s, k)
  }

  /** Member k's part of Grew. */
  ghost predicate GrewAt(pop: seq<Infectee>, offs: seq<seq<Infectee>>, dues: seq<nat>, births: seq<seq<real>>,
                         p: Params, s: nat, k: nat)
    requires Runnable(p) && k < |pop| == |offs| == |dues| == |births|
  {
    && Shaped(pop[k].path, pop[k].endTimes) && |offs[k]| == dues[k] && dues[k] == SpawnedBy(pop[k], p, s)
    && TimesOf(offs[k]) == births[k] && births[k] == BirthTimes(pop[k], p, s)
  }

  /** Grew gives Tallied, Due, Dated and Scheduled. */
  lemma GrewSplit(pop: seq<Infectee>, offs: seq<seq<Infectee>>, dues: seq<nat>, births: seq<seq<real>>, p: Params, s: nat)
    requires Grew(pop, offs, dues, births, p, s)
    ensures Tallied(offs, dues) && Due(pop, dues, p, s) && Dated(offs, births) && Scheduled(pop, births, p, s)
  {
    forall k | 0 <= k < |pop|
      ensures |offs[k]| == dues[k] && Shaped(pop[k].path, pop[k].endTimes) && dues[k] == SpawnedBy(pop[k], p, s)
      ensures TimesOf(offs[k]) == births[k] && ScheduledAt(pop, births, p, s, k)
    {
      assert GrewAt(pop, offs, dues, births, p, s, k);
    }
  }

  /** Tallied, Due, Dated and Scheduled together give Grew. */
  lemma GrewJoin(pop: seq<Infectee>, offs: seq<seq<Infectee>>, dues: seq<nat>, births: seq<seq<real>>, p: Params, s: nat)
    requires |offs| == |pop| && Tallied(offs, dues) && Due(pop, dues, p, s) && Dated(offs, births) && Scheduled(pop, births, p, s)
    ensures Grew(pop, offs, dues, births, p, s)
  {
    forall k | 0 <= k < |pop| ensures GrewAt(pop, offs, dues, births, p, s, k) {
      assert ScheduledAt(pop, births, p, s, k);
    }
  }

  /**
   * The sweep of step s + 1, which gives member k of `pop` (whose offspring
   * were offs[k]) the children kids[k] and makes them the newborns `born`,
   * keeps the growth of the population with the newborns appended.
   */
  lemma GrowthNext(pop: seq<Infectee>, offs: seq<seq<Infectee>>, dues: seq<nat>, births: seq<seq<real>>,
                   kids: seq<seq<Infectee>>, born: seq<Infectee>, stream: nat -> Draws, p: Params, s: nat)
    requires Grew(pop, offs, dues, births, p, s)
    requires Sprouted(pop, dues, kids, StepTime(p, s), StepTime(p, s + 1), p.infectDelta)
    requires Roster(pop + born, stream) && born == Flatten(kids)
    requires forall j :: 0 <= j < |born| ==> born[j].infectionTime == StepTime(p, s + 1)
    ensures Grew(pop + born, OffspringAfter(offs, kids, |born|), DuesAfter(dues, kids, |born|),
                 BirthsAfter(births, kids, |born|), p, s + 1)
  {
    GrewSplit(pop, offs, dues, births, p, s);
    DueNext(pop, dues, kids, born, stream, p, s);
    ScheduledNext(pop, births, dues, kids, born, stream, p, s);
    DatedNext(offs, dues, births, kids, |born|);
    GrewJoin(pop + born, OffspringAfter(offs, kids, |born|), DuesAfter(dues, kids, |born|), BirthsAfter(births, kids, |born|), p, s + 1);
  }

  /**
   * GrowthNext in terms of the individuals' own offspring lists: the sweep
   * that appended kids[k] to member k's offspring before[k] keeps the growth
   * of the population with the newborns appended.
   */
  lemma SweptGrowth(pop: seq<Infectee>, before: seq<seq<Infectee>>, dues: seq<nat>, births: seq<seq<real>>,
                    kids: seq<seq<Infectee>>, born: seq<Infectee>, offs: seq<seq<Infectee>>,
                    stream: nat -> Draws, p: Params, s: nat, time: real)
    requires Grew(pop, before, dues, births, p, s) && time == StepTime(p, s + 1)
    requires Sprouted(pop, dues, kids, StepTime(p, s), time, p.infectDelta)
    requires Roster(pop + born, stream) && born == Flatten(kids)
    requires forall j :: 0 <= j < |born| ==> born[j].infectionTime == time
    requires forall k :: 0 <= k < |pop| ==> pop[k].offspring == before[k] + kids[k]
    requires Grown(pop + born, DuesAfter(dues, kids, |born|)) && offs == OffspringOf(pop + born)
    ensures Grew(pop + born, offs, DuesAfter(dues, kids, |born|), BirthsAfter(births, kids, |born|), p, s + 1)
  {
    GrowthNext(pop, before, dues, births, kids, born, stream, p, s);
    OffspringAppended(pop, before, kids, born, dues);
  }

  /** Whether the update of step j (from 1) moves x through an infectious state. */
  ghost predicate InfectiousAtStep(x: Infectee, p: Params, j: nat)
    requires Runnable(p) && Shaped(x.path, x.endTimes) && 1 <= j
  {
    StepTimeIncreasing(p, j - 1, j);
    x.CursorMonotone(StepTime(p, j - 1), StepTime(p, j));
    InfectiousBetween(x.path, x.CursorAt(StepTime(p, j - 1)), x.CursorAt(StepTime(p, j)))
  }

  /** The last of steps 1..j at which x was infectious, or 0 when there is none. */
  ghost function LastInfectious(x: Infectee, p: Params, j: nat): (l: nat)
    requires Runnable(p) && Shaped(x.path, x.endTimes)
    ensures l <= j && (l > 0 ==> InfectiousAtStep(x, p, l))
  {
    if j == 0 then 0 else if InfectiousAtStep(x, p, j) then j else LastInfectious(x, p, j - 1)
  }

  /**
   * The children of x after j steps in closed form: one per whole `delta`
   * elapsed strictly between its infection and the time of the last step
   * at which it was infectious, and none if it never was.
   */
  lemma {:induction false} SpawnedByClosedForm(x: Infectee, p: Params, j: nat)
    requires Runnable(p) && Shaped(x.path, x.endTimes)
    ensures var l := LastInfectious(x, p, j);
            SpawnedBy(x, p, j) == if l == 0 then 0 else Spawns(StepTime(p, l) - x.infectionTime, p.infectDelta)
  {
    if j > 0 {
      SpawnedByClosedForm(x, p, j - 1);
      var b, l', delta := SpawnedBy(x, p, j - 1), LastInfectious(x, p, j - 1), p.infectDelta;
      if InfectiousAtStep(x, p, j) {
        if l' > 0 {
          StepTimeIncreasing(p, l', j);
          SpawnsMonotone(StepTime(p, l') - x.infectionTime, StepTime(p, j) - x.infectionTime, delta);
        }
        StepSpawnsCatchUp(x, p, j, b);
      } else {
        StepSpawnsAtStep(x, p, j, b);
      }
    }
  }

  /**
   * An update of step j that moves x through an infectious state brings its
   * b children, no more than are due by then, up to Spawns of the time since
   * its infection.
   */
  lemma StepSpawnsCatchUp(x: Infectee, p: Params, j: nat, b: nat)
    requires Runnable(p) && Shaped(x.path, x.endTimes) && 1 <= j && InfectiousAtStep(x, p, j)
    requires b <= Spawns(StepTime(p, j) - x.infectionTime, p.infectDelta)
    ensures StepTime(p, j - 1) < StepTime(p, j)
    ensures b + StepSpawns(x, StepTime(p, j - 1), StepTime(p, j), b, p.infectDelta) ==
            Spawns(StepTime(p, j) - x.infectionTime, p.infectDelta)
  {
    StepTimeIncreasing(p, j - 1, j);
    SpawnsCaughtUp(x, StepTime(p, j - 1), StepTime(p, j), b, p.infectDelta);
  }

  /** StepSpawnsCatchUp for an update from `last` to `time` in which x is infectious. */
  lemma SpawnsCaughtUp(x: Infectee, last: real, time: real, b: nat, delta: real)
    requires Shaped(x.path, x.endTimes) && last <= time && delta > 0.0
    requires x.CursorAt(last) <= x.CursorAt(time) && InfectiousBetween(x.path, x.CursorAt(last), x.CursorAt(time))
    requires b <= Spawns(time - x.infectionTime, delta)
    ensures b + StepSpawns(x, last, time, b, delta) == Spawns(time - x.infectionTime, delta)
  {
    SpawnsCatchUp(x.infectionTime, b, time, delta);
  }


  /** The spawns of the update of step j, for an individual with b children. */
  lemma StepSpawnsAtStep(x: Infectee, p: Params, j: nat, b: nat)
    requires Runnable(p) && Shaped(x.path, x.endTimes) && 1 <= j
    ensures StepTime(p, j - 1) < StepTime(p, j)
    ensures InfectiousAtStep(x, p, j) ==>
              StepSpawns(x, StepTime(p, j - 1), StepTime(p, j), b, p.infectDelta) ==
              Spawns(StepTime(p, j) - (x.infectionTime + b as real * p.infectDelta), p.infectDelta)
    ensures !InfectiousAtStep(x, p, j) ==> StepSpawns(x, StepTime(p, j - 1), StepTime(p, j), b, p.infectDelta) == 0
  {
    StepTimeIncreasing(p, j - 1, j);
  }

  /**
   * An individual whose first state is not infectious has spawned nothing in
   * the steps up to its own infection.
   */
  lemma {:induction false} SpawnedBeforeInfection(x: Infectee, p: Params, j: nat)
    requires Runnable(p) && Shaped(x.path, x.endTimes) && !CanInfect(x.path[0])
    requires StepTime(p, j) <= x.infectionTime
    ensures SpawnedBy(x, p, j) == 0
  {
    if j > 0 {
      StepTimeIncreasing(p, j - 1, j);
      SpawnedBeforeInfection(x, p, j - 1);
      assert x.CursorAt(StepTime(p, j)) == 0;
    }
  }

  /** The offspring of each member of `pop`, in population order. */
  ghost function OffspringOf(pop: seq<Infectee>): (offs: seq<seq<Infectee>>)
    reads set x | x in pop
    ensures |offs| == |pop| && forall k :: 0 <= k < |pop| ==> offs[k] == pop[k].offspring
  {
    seq(|pop|, k requires 0 <= k < |pop| reads pop => pop[k].offspring)
  }

  /**
   * With member k's offspring its old ones before[k] followed by its
   * children kids[k], and the newborns childless, the offspring lists of
   * the grown population are OffspringAfter's.
   */
  lemma OffspringAppended(pop: seq<Infectee>, before: seq<seq<Infectee>>, kids: seq<seq<Infectee>>,
                          born: seq<Infectee>, dues: seq<nat>)
    requires |before| == |kids| == |pop| == |dues|
    requires forall k :: 0 <= k < |pop| ==> pop[k].offspring == before[k] + kids[k]
    requires Grown(pop + born, DuesAfter(dues, kids, |born|))
    ensures OffspringOf(pop + born) == OffspringAfter(before, kids, |born|)
  {
    var after, all := OffspringOf(pop + born), pop + born;
    forall k | 0 <= k < |after| ensures after[k] == OffspringAfter(before, kids, |born|)[k] {
      if k < |pop| {
        assert all[k] == pop[k];
      } else {
        assert |after[k]| == 0;
      }
    }
  }

  /** Member k of `pop` has dues[k] offspring. */
  ghost predicate Grown(pop: seq<Infectee>, dues: seq<nat>)
    reads set x | x in pop
  {
    |dues| == |pop| && forall k :: 0 <= k < |pop| ==> |pop[k].offspring| == dues[k]
  }

  /** dues[k] is what steps 1..s give member k of `pop` (see SpawnedBy). */
  ghost predicate Due(pop: seq<Infectee>, dues: seq<nat>, p: Params, s: nat) {
    Runnable(p) && |dues| == |pop| && forall k :: 0 <= k < |pop| ==>
      Shaped(pop[k].path, pop[k].endTimes) && dues[k] == SpawnedBy(pop[k], p, s)
  }

  /**
   * Member k of `pop`, with dues[k] offspring, spawns kids[k] in the update
   * at `time` that follows the one at `last`, StepSpawns of them.
   */
  ghost predicate Sprouted(pop: seq<Infectee>, dues: seq<nat>, kids: seq<seq<Infectee>>, last: real, time: real, delta: real) {
    && |kids| == |pop| == |dues| && last <= time && delta > 0.0
    && forall k :: 0 <= k < |pop| ==>
         Shaped(pop[k].path, pop[k].endTimes) && |kids[k]| == StepSpawns(pop[k], last, time, dues[k], delta)
  }

  /** The offspring counts after a sweep: each member's grows by its children; newborns have none. */
  ghost function DuesAfter(dues: seq<nat>, kids: seq<seq<Infectee>>, newborns: nat): (r: seq<nat>)
    requires |kids| == |dues|
    ensures |r| == |dues| + newborns
    ensures forall k :: 0 <= k < |dues| ==> r[k] == dues[k] + |kids[k]|
    ensures forall k :: |dues| <= k < |r| ==> r[k] == 0
  {
    seq(|dues|, k requires 0 <= k < |dues| => dues[k] + |kids[k]|) + seq(newborns, _ => 0)
  }

  /**
   * After the sweep of step s + 1 the members have spawned what steps
   * 1..s + 1 give them, and the newborns, infected at that step, nothing.
   */
  lemma DueNext(pop: seq<Infectee>, dues: seq<nat>, kids: seq<seq<Infectee>>, born: seq<Infectee>,
                stream: nat -> Draws, p: Params, s: nat)
    requires Due(pop, dues, p, s) && Sprouted(pop, dues, kids, StepTime(p, s), StepTime(p, s + 1), p.infectDelta)
    requires Roster(pop + born, stream) && forall j :: 0 <= j < |born| ==> born[j].infectionTime == StepTime(p, s + 1)
    ensures Due(pop + born, DuesAfter(dues, kids, |born|), p, s + 1)
  {
    var all, dues' := pop + born, DuesAfter(dues, kids, |born|);
    forall k | 0 <= k < |all| ensures Shaped(all[k].path, all[k].endTimes) && dues'[k] == SpawnedBy(all[k], p, s + 1) {
      if k < |pop| {
        assert all[k] == pop[k];
      } else {
        var x := born[k - |pop|];
        assert all[k] == x && DrawnAt(all, k, 0, stream);
        PathShape(stream(k));
        SpawnedBeforeInfection(x, p, s + 1);
      }
    }
  }

  /**
   * One update of `x`, settled at `last`, at a later `time`: afterwards x is
   * settled at `time`, and the children it spawned, individuals number next,
   * next + 1, ..., are untouched newborns infected by x and appended to its
   * offspring.
   */
  method Advance(x: Infectee, ghost last: real, time: real, delta: real, stream: nat -> Draws, next: nat)
    returns (children: seq<Infectee>)
    requires x.Valid() && x.Settled(last) && x.Paced(delta) && last < time && delta > 0.0
    modifies x
    ensures x.Valid() && x.Settled(time) && x.Paced(delta)
    ensures x.offspring == old(x.offspring) + children
    ensures |children| == StepSpawns(x, last, time, old(|x.offspring|), delta)
    ensures Numbered(children, next, stream, time) && Untouched(children)
    ensures forall k :: 0 <= k < |children| ==> fresh(children[k]) && children[k].infector == x
  {
    ghost var before := |x.offspring|;
    children := x.Update(time, delta, stream, next);
    if x.infectionTime < last {
      SettleCompose(x.path, x.endTimes, 0, last, time);
    }
    AdvancedIsMultiple(old(x.timeLastInfection), |children|, delta);
    assert (before + |children|) as real * delta == before as real * delta + |children| as real * delta;
  }

  /** Appending the newborns numbered after the earlier ones keeps them all numbered and untouched. */
  lemma NewbornsAppend(born: seq<Infectee>, children: seq<Infectee>, base: nat, next: nat, stream: nat -> Draws, time: real)
    requires next == base + |born|
    requires Numbered(born, base, stream, time) && Numbered(children, next, stream, time)
    requires Untouched(born) && Untouched(children)
    ensures Numbered(born + children, base, stream, time) && Untouched(born + children)
  {
    var all := born + children;
    forall j | 0 <= j < |all|
      ensures all[j].id == base + j && all[j].infectionTime == time && DrawnAt(all, j, base, stream)
      ensures Shaped(all[j].path, all[j].endTimes) && all[j].pos == 0 && all[j].offspring == []
    {
      if j < |born| {
        assert all[j] == born[j] && DrawnAt(born, j, base, stream);
      } else {
        assert all[j] == children[j - |born|] && DrawnAt(children, j - |born|, next, stream);
      }
    }
  }

  /**
   * At the start of the sweep after step s every member is pending, with
   * offspring before[k], as many as it spawned in steps 1..s.
   */
  lemma SweepStart(pop: seq<Infectee>, before: seq<seq<Infectee>>, stream: nat -> Draws, delta: real, last: real, time: real)
    requires Population(pop, stream, delta, last)
    requires |before| == |pop| && forall k :: 0 <= k < |pop| ==> before[k] == pop[k].offspring
    ensures SweptUpTo(pop, before, [], 0, last, time, delta) && Nursery(pop, [], stream, time)
    ensures forall k :: 1 <= k < |pop| ==> AdoptedIn(pop, before, k)
    ensures forall k :: 0 <= k < |pop| ==> AscendingBelow(before[k], |pop|)
  {
    assert pop + [] == pop;
    forall k | 0 <= k < |pop| ensures Pending(pop[k], before[k], last, delta) && AscendingBelow(before[k], |pop|) {
      assert SettledAt(pop, k, last) && Ascends(pop, k);
    }
    forall k | 1 <= k < |pop| ensures AdoptedIn(pop, before, k) {
      assert HasInfector(pop, k) && Adopted(pop, k);
    }
  }

  /** Member k of `pop` is among before[i], where i is its infector's number. */
  ghost predicate AdoptedIn(pop: seq<Infectee>, before: seq<seq<Infectee>>, k: nat)
    requires k < |pop|
  {
    HasInfector(pop, k) && pop[k].infector.id < |before| && pop[k] in before[pop[k].infector.id]
  }

  /**
   * The sweep's results put together: the members, all settled at `time`,
   * followed by the untouched newborns, form the population at `time`.
   */
  lemma SweepDone(pop: seq<Infectee>, before: seq<seq<Infectee>>, kids: seq<seq<Infectee>>, born: seq<Infectee>,
                  dues: seq<nat>, stream: nat -> Draws, delta: real, last: real, time: real)
    requires Roster(pop, stream) && last < time
    requires forall k :: 0 <= k < |pop| ==> pop[k].infectionTime <= last
    requires SweptUpTo(pop, before, kids, |pop|, last, time, delta) && Nursery(pop, born, stream, time)
    requires |dues| == |pop| && forall k :: 0 <= k < |pop| ==> |before[k]| == dues[k]
    requires born == Flatten(kids) && forall k :: 1 <= k < |pop| ==> AdoptedIn(pop, before, k)
    requires forall k :: 0 <= k < |pop| ==> AscendingBelow(before[k], |pop|)
    ensures Population(pop + born, stream, delta, time)
    ensures forall k :: 0 <= k < |pop| ==> pop[k].offspring == before[k] + kids[k]
    ensures Sprouted(pop, dues, kids, last, time, delta) && Grown(pop + born, DuesAfter(dues, kids, |born|))
  {
    var all := pop + born;
    forall k | 0 <= k < |all|
      ensures all[k].id == k && DrawnAt(all, k, 0, stream)
      ensures SettledAt(all, k, time) && all[k].Paced(delta) && Linked(all, k, all)
      ensures AscendingBelow(all[k].offspring, |all|)
    {
      if k >= |pop| {
        assert all[k] == born[k - |pop|] && DrawnAt(born, k - |pop|, |pop|, stream);
      } else {
        assert all[k] == pop[k] && DrawnAt(pop, k, 0, stream);
        assert Swept(pop[k], before[k], kids[k], last, time, delta) && Linked(pop, k, all);
        AscendingGrown(pop, before, kids, born, k, stream, time);
      }
    }
    var dues' := DuesAfter(dues, kids, |born|);
    forall k | 0 <= k < |all| ensures |all[k].offspring| == dues'[k] {
      if k < |pop| {
        assert all[k] == pop[k] && Swept(pop[k], before[k], kids[k], last, time, delta);
      } else {
        assert all[k] == born[k - |pop|];
      }
    }
    forall k | 0 <= k < |pop|
      ensures |kids[k]| == StepSpawns(pop[k], last, time, dues[k], delta)
      ensures pop[k].offspring == before[k] + kids[k] && forall j :: 0 <= j < |kids[k]| ==> kids[k][j].infector == pop[k]
    {
      assert Swept(pop[k], before[k], kids[k], last, time, delta);
    }
    SweepFamily(pop, before, kids, born);
    OrderGrown(pop, kids, born, last, time);
  }

  /**
   * Member k's offspring before the sweep followed by its children in the
   * sweep are still in increasing order of number: the children are
   * numbered after every member, in the order in which they were spawned.
   */
  lemma AscendingGrown(pop: seq<Infectee>, before: seq<seq<Infectee>>, kids: seq<seq<Infectee>>, born: seq<Infectee>,
                       k: nat, stream: nat -> Draws, time: real)
    requires |kids| == |pop| == |before| && k < |pop| && born == Flatten(kids) && Numbered(born, |pop|, stream, time)
    requires AscendingBelow(before[k], |pop|)
    ensures AscendingBelow(before[k] + kids[k], |pop + born|)
  {
    var offs, b := before[k] + kids[k], |before[k]|;
    forall m | 0 <= m < |kids[k]| ensures kids[k][m].id == |pop| + Offset(kids, k) + m < |pop + born| {
      var n := FlattenAt(kids, k, m);
    }
    forall m | 0 <= m < |offs| ensures IdAt(offs, m) == if m < b then IdAt(before[k], m) else |pop| + Offset(kids, k) + (m - b) {
      if m >= b {
        assert offs[m] == kids[k][m - b];
      }
    }
  }

  /**
   * After the sweep the population is still in order: the newborns,
   * infected at `time`, follow the members, infected by `last`, and come in
   * the order of their infectors, since they are joined in member order.
   */
  lemma OrderGrown(pop: seq<Infectee>, kids: seq<seq<Infectee>>, born: seq<Infectee>, last: real, time: real)
    requires |kids| == |pop| && born == Flatten(kids) && last < time
    requires forall k :: 0 <= k < |pop| ==> pop[k].id == k && InOrderAt(pop, k) && pop[k].infectionTime <= last
    requires forall j :: 0 <= j < |born| ==> born[j].infectionTime == time
    requires forall k :: 0 <= k < |pop| ==> forall m :: 0 <= m < |kids[k]| ==> kids[k][m].infector == pop[k]
    ensures forall k :: 0 <= k < |pop + born| ==> InOrderAt(pop + born, k)
  {
    var all, n := pop + born, |pop|;
    forall k | 0 <= k < |all| ensures InOrderAt(all, k) {
      forall j | 0 <= j < k ensures JoinedBefore(all[j], all[k]) {
        if k < n {
          assert all[j] == pop[j] && all[k] == pop[k] && InOrderAt(pop, k);
        } else if j < n {
          assert all[j] == pop[j] && all[k] == born[k - n];
        } else {
          var i, m, i', m' := FlattenOrder(kids, j - n, k - n);
          assert all[j] == kids[i][m] && all[k] == kids[i'][m'];
          assert InfectorId(all[j]) == i && InfectorId(all[k]) == i';
        }
      }
    }
  }

  /**
   * After a sweep that appended to each member's offspring before[k] the
   * children kids[k] it infected, and added their join as newborns, every
   * individual but the index case is still among its infector's offspring.
   */
  lemma SweepFamily(pop: seq<Infectee>, before: seq<seq<Infectee>>, kids: seq<seq<Infectee>>, born: seq<Infectee>)
    requires |before| == |kids| == |pop| && born == Flatten(kids)
    requires forall k :: 0 <= k < |pop| ==> pop[k].id == k
    requires forall k :: 0 <= k < |pop| ==> pop[k].offspring == before[k] + kids[k]
    requires forall k :: 0 <= k < |pop| ==> forall j :: 0 <= j < |kids[k]| ==> kids[k][j].infector == pop[k]
    requires forall k :: 1 <= k < |pop| ==> AdoptedIn(pop, before, k)
    ensures forall k :: 1 <= k < |pop + born| ==> HasInfector(pop + born, k) && Adopted(pop + born, k)
  {
    var all := pop + born;
    forall k | 1 <= k < |all| ensures HasInfector(all, k) && Adopted(all, k) {
      if k < |pop| {
        assert AdoptedIn(pop, before, k);
        var i := pop[k].infector.id;
        assert all[k] == pop[k] && all[i] == pop[i];
      } else {
        var i, m := FlattenPart(kids, k - |pop|);
        assert all[k] == kids[i][m] && all[i] == pop[i];
      }
    }
  }

  // ---------------------------------------------------------------------
  // The log of the steps run.

  /** Population size at the start of step k (k from 1), given the sizes after each step. */
  ghost function SizeBefore(sizes: seq<nat>, k: nat): nat
    requires 1 <= k <= |sizes| + 1
  {
    if k == 1 then 1 else sizes[k - 2]
  }

  /**
   * The bookkeeping of the steps run so far, with `size` the current
   * population size (see SizeLog and ReportLog).
   */
  ghost predicate StepLog(p: Params, last: real, sizes: seq<nat>, reportSteps: seq<nat>, snaps: seq<seq<State>>, size: nat) {
    SizeLog(p, last, sizes, size) && ReportLog(p, sizes, reportSteps, snaps)
  }

  /**
   * The sizes after the steps run: the last step ran at StepTime(|sizes|);
   * the sizes never shrink and end at the current size (1 before any step);
   * no step but possibly the last exceeded the cap.
   */
  ghost predicate SizeLog(p: Params, last: real, sizes: seq<nat>, size: nat) {
    && Runnable(p)
    && last == StepTime(p, |sizes|)
    && (|sizes| > 0 ==> sizes[|sizes| - 1] == size)
    && (|sizes| == 0 ==> size == 1)
    && (forall j :: 0 <= j < |sizes| - 1 ==> sizes[j] <= p.maxInfected)
    && (forall j :: 0 < j < |sizes| ==> sizes[j - 1] <= sizes[j])
  }

  /**
   * The reporting steps run are, in order, the steps passing the reporting
   * test, each with one snapshot of as many statuses as individuals were
   * present at its start.
   */
  ghost predicate ReportLog(p: Params, sizes: seq<nat>, reportSteps: seq<nat>, snaps: seq<seq<State>>)
    requires Runnable(p)
  {
    && |snaps| == |reportSteps| == ReportsIn(p, |sizes|)
    && (forall r, s :: 0 <= r < s < |reportSteps| ==> reportSteps[r] < reportSteps[s])
    && (forall r :: 0 <= r < |reportSteps| ==>
          1 <= reportSteps[r] <= |sizes|
          && IsReportStep(p, StepTime(p, reportSteps[r]))
          && |snaps[r]| == SizeBefore(sizes, reportSteps[r]))
  }

  /**
   * One more step, to size `size'` from `size` (within the cap, unless it
   * is the first step), keeps the log: on a reporting step the snapshot of
   * the individuals present at its start is recorded.
   */
  lemma StepLogNext(p: Params, last: real, sizes: seq<nat>, reportSteps: seq<nat>, snaps: seq<seq<State>>, size: nat,
                    last': real, sizes': seq<nat>, reportSteps': seq<nat>, snaps': seq<seq<State>>, size': nat,
                    report: bool, counted: seq<State>)
    requires StepLog(p, last, sizes, reportSteps, snaps, size)
    requires size <= size' && |counted| == size && (|sizes| > 0 ==> size <= p.maxInfected)
    requires sizes' == sizes + [size'] && last' == StepTime(p, |sizes'|)
    requires report == IsReportStep(p, last')
    requires reportSteps' == (if report then reportSteps + [|sizes'|] else reportSteps)
    requires snaps' == (if report then snaps + [counted] else snaps)
    ensures StepLog(p, last', sizes', reportSteps', snaps', size')
  {
    SizeLogNext(p, last, sizes, size, last', sizes', size');
    ReportLogNext(p, sizes, reportSteps, snaps, size, sizes', reportSteps', snaps', report, counted);
  }

  lemma SizeLogNext(p: Params, last: real, sizes: seq<nat>, size: nat, last': real, sizes': seq<nat>, size': nat)
    requires SizeLog(p, last, sizes, size)
    requires size <= size' && (|sizes| > 0 ==> size <= p.maxInfected)
    requires sizes' == sizes + [size'] && last' == StepTime(p, |sizes'|)
    ensures SizeLog(p, last', sizes', size')
  {
  }

  lemma ReportLogNext(p: Params, sizes: seq<nat>, reportSteps: seq<nat>, snaps: seq<seq<State>>, size: nat,
                      sizes': seq<nat>, reportSteps': seq<nat>, snaps': seq<seq<State>>,
                      report: bool, counted: seq<State>)
    requires Runnable(p) && ReportLog(p, sizes, reportSteps, snaps)
    requires |counted| == size && (|sizes| > 0 ==> sizes[|sizes| - 1] == size) && (|sizes| == 0 ==> size == 1)
    requires |sizes'| == |sizes| + 1 && sizes'[..|sizes|] == sizes
    requires report == IsReportStep(p, StepTime(p, |sizes'|))
    requires reportSteps' == (if report then reportSteps + [|sizes'|] else reportSteps)
    requires snaps' == (if report then snaps + [counted] else snaps)
    ensures ReportLog(p, sizes', reportSteps', snaps')
  {
    forall r | 0 <= r < |reportSteps| ensures SizeBefore(sizes', reportSteps[r]) == SizeBefore(sizes, reportSteps[r]) {
      if reportSteps[r] > 1 {
        assert sizes'[reportSteps[r] - 2] == sizes'[..|sizes|][reportSteps[r] - 2];
      }
    }
    assert SizeBefore(sizes', |sizes'|) == size;
  }

  /**
   * Each snapshot r, taken at step reportSteps[r], holds for the first
   * |snaps[r]| individuals of `pop` their states after that step.
   */
  ghost predicate Snapped(p: Params, reportSteps: seq<nat>, snaps: seq<seq<State>>, pop: seq<Infectee>) {
    && |snaps| == |reportSteps|
    && (forall r :: 0 <= r < |snaps| ==> |snaps[r]| <= |pop|)
    && forall r, k :: 0 <= r < |snaps| && 0 <= k < |snaps[r]| && k < |pop| ==>
         CountedAt(snaps[r], pop, k, StepTime(p, reportSteps[r]))
  }

  /** Appending newborns, and a snapshot of the states of `pop` after step `step`, keeps the snapshots. */
  lemma SnappedNext(p: Params, reportSteps: seq<nat>, snaps: seq<seq<State>>, pop: seq<Infectee>,
                    reportSteps': seq<nat>, snaps': seq<seq<State>>, pop': seq<Infectee>,
                    report: bool, step: nat, counted: seq<State>)
    requires Snapped(p, reportSteps, snaps, pop)
    requires |counted| == |pop| && forall k :: 0 <= k < |pop| ==> CountedAt(counted, pop, k, StepTime(p, step))
    requires |pop| <= |pop'| && pop'[..|pop|] == pop
    requires reportSteps' == (if report then reportSteps + [step] else reportSteps)
    requires snaps' == (if report then snaps + [counted] else snaps)
    ensures Snapped(p, reportSteps', snaps', pop')
  {
    if report {
      SnappedAppend(p, reportSteps, snaps, pop, step, counted);
    }
    SnappedGrow(p, reportSteps', snaps', pop, pop');
  }

  /** A snapshot of the states of `pop` after step `step` can be added. */
  lemma SnappedAppend(p: Params, reportSteps: seq<nat>, snaps: seq<seq<State>>, pop: seq<Infectee>,
                      step: nat, counted: seq<State>)
    requires Snapped(p, reportSteps, snaps, pop)
    requires |counted| == |pop| && forall k :: 0 <= k < |pop| ==> CountedAt(counted, pop, k, StepTime(p, step))
    ensures Snapped(p, reportSteps + [step], snaps + [counted], pop)
  {
    var reportSteps', snaps' := reportSteps + [step], snaps + [counted];
    forall r | 0 <= r < |snaps'| ensures |snaps'[r]| <= |pop| {
      if r < |snaps| {
        assert snaps'[r] == snaps[r];
      }
    }
    forall r, k | 0 <= r < |snaps'| && 0 <= k < |snaps'[r]| && k < |pop|
      ensures CountedAt(snaps'[r], pop, k, StepTime(p, reportSteps'[r]))
    {
      if r < |snaps| {
        assert snaps'[r] == snaps[r] && reportSteps'[r] == reportSteps[r];
      } else {
        assert snaps'[r] == counted && reportSteps'[r] == step;
      }
    }
  }

  /** Snapshots stay true when newborns are appended to the population. */
  lemma SnappedGrow(p: Params, reportSteps: seq<nat>, snaps: seq<seq<State>>, pop: seq<Infectee>, pop': seq<Infectee>)
    requires Snapped(p, reportSteps, snaps, pop)
    requires |pop| <= |pop'| && pop'[..|pop|] == pop
    ensures Snapped(p, reportSteps, snaps, pop')
  {
    forall r, k | 0 <= r < |snaps| && 0 <= k < |snaps[r]| && k < |pop'|
      ensures CountedAt(snaps[r], pop', k, StepTime(p, reportSteps[r]))
    {
      assert k < |pop|;
      assert CountedAt(snaps[r], pop, k, StepTime(p, reportSteps[r]));
      assert pop'[k] == pop'[..|pop|][k] == pop[k];
    }
  }

  /** Rows 0..|snaps|-1 of `a` hold the counts of the statuses in `snaps`; later rows are zero. */
  ghost predicate Filled(a: array2<int>, snaps: seq<seq<State>>)
    reads a
  {
    && a.Length1 == NumStates && |snaps| <= a.Length0
    && (forall r, c :: 0 <= r < |snaps| && 0 <= c < NumStates ==> a[r, c] == Count(snaps[r], FromIndex(c)))
    && (forall r, c :: |snaps| <= r < a.Length0 && 0 <= c < NumStates ==> a[r, c] == 0)
  }

  // ---------------------------------------------------------------------
  // The reproduction-number estimate.

  /** A ratio of two counts; the C++ program divides them as floats. */
  datatype Estimate = Estimate(reported: nat, infectors: nat) {
    /** The ratio, or None when there is no infector (the C++ program divides by zero). */
    function Value(): (v: Option<real>)
      ensures v.None? <==> infectors == 0
      ensures v.Some? ==> v.value >= 0.0 && v.value * infectors as real == reported as real
    {
      if infectors == 0 then None else Some(reported as real / infectors as real)
    }
  }

  /** Every individual of `xs` is valid. */
  ghost predicate ValidAll(xs: seq<Infectee>)
    reads xs
  {
    forall k :: 0 <= k < |xs| ==> xs[k].Valid()
  }

  /** A valid individual whose state number is above 3 (recovering or beyond). */
  ghost predicate Completed(x: Infectee)
    reads x
  {
    x.Valid() && x.IStatus() > 3
  }

  /** The number of reported individuals among kids[..n]. */
  ghost function ReportedAmong(kids: seq<Infectee>, n: nat): (r: nat)
    reads set x | x in kids
    requires n <= |kids|
    ensures r <= n
  {
    if n == 0 then 0
    else ReportedAmong(kids, n - 1) + (if kids[n - 1].Valid() && kids[n - 1].IsReportedNow() then 1 else 0)
  }

  /**
   * The two counts of the estimate over pop[..n]: the members whose state
   * number is above 3, and the reported offspring of those members.
   */
  ghost function EstimateOver(pop: seq<Infectee>, n: nat): (e: Estimate)
    reads set x | x in pop, set x, c | x in pop && c in x.offspring :: c
    requires n <= |pop|
    ensures e.infectors <= n
  {
    if n == 0 then Estimate(0, 0)
    else
      var e := EstimateOver(pop, n - 1);
      var x := pop[n - 1];
      if Completed(x) then Estimate(e.reported + ReportedAmong(x.offspring, |x.offspring|), e.infectors + 1)
      else e
  }

  /**
   * The estimate is undefined (None) exactly when no member among pop[..n]
   * has a state number above 3: with no infector the C++ program divides
   * by zero.
   */
  lemma {:induction false} EstimateUndefined(pop: seq<Infectee>, n: nat)
    requires n <= |pop|
    ensures EstimateOver(pop, n).Value().None? <==> forall k :: 0 <= k < n ==> !Completed(pop[k])
  {
    if n > 0 {
      EstimateUndefined(pop, n - 1);
    }
  }

  /** The offspring of the members among pop[..n] whose state number is above 3. */
  ghost function CompletedOffspring(pop: seq<Infectee>, n: nat): nat
    reads pop
    requires n <= |pop|
  {
    if n == 0 then 0
    else
      var x := pop[n - 1];
      CompletedOffspring(pop, n - 1) + (if Completed(x) then |x.offspring| else 0)
  }

  /**
   * The numerator counts only offspring of completed infectors, so it is at
   * most their total offspring.
   */
  lemma {:induction false} EstimateBounds(pop: seq<Infectee>, n: nat)
    requires n <= |pop|
    ensures EstimateOver(pop, n).reported <= CompletedOffspring(pop, n)
  {
    if n > 0 {
      EstimateBounds(pop, n - 1);
    }
  }

  /** The table row sum over the first n columns. */
  ghost function RowSum(a: array2<int>, r: nat, n: nat): int
    reads a
    requires r < a.Length0 && n <= a.Length1
  {
    if n == 0 then 0 else RowSum(a, r, n - 1) + a[r, n - 1]
  }

  /**
   * A row that holds, in each column, the count of that state among `ss`
   * sums to |ss|: every counted individual lands in exactly one column.
   */
  lemma RowSumIsCount(a: array2<int>, r: nat, ss: seq<State>)
    requires r < a.Length0 && a.Length1 == NumStates
    requires forall c :: 0 <= c < NumStates ==> a[r, c] == Count(ss, FromIndex(c))
    ensures RowSum(a, r, NumStates) == |ss|
  {
    RowSumPrefix(a, r, ss, NumStates);
    CountsSumToSize(ss);
  }

  lemma {:induction false} RowSumPrefix(a: array2<int>, r: nat, ss: seq<State>, n: nat)
    requires r < a.Length0 && a.Length1 == NumStates && n <= NumStates
    requires forall c :: 0 <= c < NumStates ==> a[r, c] == Count(ss, FromIndex(c))
    ensures RowSum(a, r, n) == CountBelow(ss, n)
  {
    if n > 0 {
      RowSumPrefix(a, r, ss, n - 1);
    }
  }

  // ---------------------------------------------------------------------
  // The driver.

  class Outbreak {
    /** The parameters of the run. */
    const params: Params
    /** The draws of the individuals, in creation order. */
    const stream: nat -> Draws
    /** All individuals infected so far, present and past, in creation order. */
    var infected: seq<Infectee>
    /** One row per reporting step, one column per state. */
    const counters: array2<int>

    /** Time of the last step run (0 before the first). */
    ghost var lastTime: real
    /** Population size after each step run. */
    ghost var sizes: seq<nat>
    /** Step numbers (from 1) of the reporting steps run. */
    ghost var reportSteps: seq<nat>
    /** The statuses counted into each filled row, in population order. */
    ghost var snaps: seq<seq<State>>
    /** The number of offspring of each individual. */
    ghost var dues: seq<nat>
    /** The infection times of each individual's offspring, in order. */
    ghost var births: seq<seq<real>>

    ghost predicate Inv()
      reads this`infected, this`lastTime, set x | x in infected
    {
      && Runnable(params)
      && counters.Length0 == Rows(params) && counters.Length1 == NumStates
      && Population(infected, stream, params.infectDelta, lastTime)
    }

    /** Rows 0..|snaps|-1 hold the counts of the recorded statuses; later rows are zero. */
    ghost predicate Table()
      reads this`snaps, counters
    {
      Filled(counters, snaps)
    }

    /** The bookkeeping of the steps run so far (see StepLog). */
    ghost predicate Steps()
      reads this`lastTime, this`sizes, this`reportSteps, this`snaps, this`infected
    {
      StepLog(params, lastTime, sizes, reportSteps, snaps, |infected|)
    }

    /**
     * Every individual has spawned, in all, what the steps run give it (see
     * SpawnedBy), each child infected at the time of the step that spawned
     * it (see BirthTimes).
     */
    ghost predicate Growth()
      reads this`infected, this`dues, this`births, this`sizes, set x | x in infected
    {
      Grew(infected, OffspringOf(infected), dues, births, params, |sizes|)
    }

    /** Each recorded snapshot holds the states after its step (see Snapped). */
    ghost predicate Snapshots()
      reads this`reportSteps, this`snaps, this`infected
    {
      Snapped(params, reportSteps, snaps, infected)
    }

    /**
     * Offspring m of member k was infected at the time of the first step s
     * run that left k with more than m children.
     */
    lemma OffspringTimes(k: nat, m: nat) returns (s: nat)
      requires Inv() && Growth() && k < |infected| && m < |infected[k].offspring|
      ensures 1 <= s <= |sizes| && SpawnedBy(infected[k], params, s - 1) <= m < SpawnedBy(infected[k], params, s)
      ensures infected[k].offspring[m].infectionTime == StepTime(params, s)
    {
      var offs := OffspringOf(infected);
      assert GrewAt(infected, offs, dues, births, params, |sizes|, k);
      s := BirthTimesAt(infected[k], params, |sizes|, m);
      assert TimesOf(offs[k])[m] == offs[k][m].infectionTime;
    }

    /** The offspring lists carry strictly increasing numbers, so no one occurs twice in one. */
    lemma OffspringOrder(k: nat)
      requires Inv() && k < |infected|
      ensures forall m, m' :: 0 <= m < m' < |infected[k].offspring| ==>
                infected[k].offspring[m].id < infected[k].offspring[m'].id
      ensures forall m, m' :: 0 <= m < m' < |infected[k].offspring| ==>
                infected[k].offspring[m] != infected[k].offspring[m']
    {
      var offs := infected[k].offspring;
      assert Ascends(infected, k);
      forall m, m' | 0 <= m < m' < |offs| ensures offs[m].id < offs[m'].id {
        assert IdAt(offs, m) < IdAt(offs, m');
      }
    }

    /**
     * Runs the outbreak: starts from the index case infected at time 0, then
     * runs the steps at timestep, 2 timestep, ... while the time is within
     * max_time, each one sweeping the population, appending the newborns
     * and, on a reporting step, filling the next row of the table; stops
     * after the first step that leaves more than max_infected individuals.
     */
    constructor (params: Params, stream: nat -> Draws)
      requires Runnable(params)
      ensures this.params == params && this.stream == stream
      ensures Inv() && Growth() && Table() && Steps() && Snapshots()
      ensures |sizes| <= Horizon(params)
      ensures |sizes| < Horizon(params) ==> |infected| > params.maxInfected
    {
      this.params := params;
      this.stream := stream;
      var nOutput := Lrint(params.maxTime / params.outputInterval);
      counters := new int[nOutput, NumStates]((r, c) => 0);
      var first := new Infectee(null, 0.0, stream(0), 0);
      infected := [first];
      lastTime := 0.0;
      sizes, reportSteps, snaps, dues, births := [], [], [], [0], [[]];
      new;
      assert SettledAt(infected, 0, 0.0) && Ascends(infected, 0);
      assert OffspringOf(infected) == [[]];
      ReportsFit(params);
      Run();
    }

    /**
     * The time loop of the run, from its first step: steps while the time is
     * within max_time, stopping early after a step that leaves more than
     * max_infected individuals.
     */
    method Run()
      requires Inv() && Growth() && Table() && Steps() && Snapshots() && sizes == []
      requires ReportsIn(params, Horizon(params)) <= counters.Length0
      modifies this, counters, set x | x in infected
      ensures Inv() && Growth() && Table() && Steps() && Snapshots()
      ensures Extends(infected, old(infected))
      ensures |sizes| <= Horizon(params)
      ensures |sizes| < Horizon(params) ==> |infected| > params.maxInfected
    {
      var outputCounter := 0;
      var time := params.timestep;
      while time <= params.maxTime
        invariant Inv() && Growth() && Table() && Steps() && Snapshots()
        invariant outputCounter == |snaps| && time == StepTime(params, |sizes| + 1)
        invariant |sizes| <= Horizon(params)
        invariant |sizes| > 0 ==> |infected| <= params.maxInfected
        invariant Extends(infected, old(infected))
        invariant forall k :: old(|infected|) <= k < |infected| ==> fresh(infected[k])
        decreases Horizon(params) - |sizes|
      {
        ghost var prev := infected;
        var report, kids := Tick(time, outputCounter);
        ExtendsAppend(prev, old(infected), Flatten(kids));
        if report {
          outputCounter := outputCounter + 1;
        }
        if |infected| > params.maxInfected {
          break;
        }
        time := time + params.timestep;
      }
      WithinHorizon(params, |sizes| + 1);
    }

    /**
     * One step at `time`, the step after the last one run: sweeps the
     * population, appends the newborns, and on a reporting step fills row
     * `row` and records its snapshot.
     */
    method Tick(time: real, row: nat) returns (report: bool, ghost kids: seq<seq<Infectee>>)
      requires Inv() && Growth() && Table() && Steps() && Snapshots()
      requires row == |snaps| && time == StepTime(params, |sizes| + 1) && time <= params.maxTime
      requires ReportsIn(params, Horizon(params)) <= counters.Length0
      requires |sizes| > 0 ==> |infected| <= params.maxInfected
      modifies this, counters, set x | x in infected
      ensures Inv() && Growth() && Table() && Steps() && Snapshots()
      ensures |sizes| == old(|sizes|) + 1 <= Horizon(params) && lastTime == time
      ensures report == IsReportStep(params, time) && |snaps| == old(|snaps|) + (if report then 1 else 0)
      ensures time + params.timestep == StepTime(params, |sizes| + 1)
      ensures infected == old(infected) + Flatten(kids)
      ensures Sprouted(old(infected), old(dues), kids, old(lastTime), time, params.infectDelta)
      ensures forall k :: 0 <= k < old(|infected|) ==> infected[k].offspring == old(infected[k].offspring) + kids[k]
      ensures forall k :: old(|infected|) <= k < |infected| ==> fresh(infected[k]) && infected[k].infectionTime == time
    {
      ghost var steps := |sizes| + 1;
      assert steps <= Horizon(params) by {
        WithinHorizon(params, steps);
      }
      assert ReportsIn(params, steps) <= ReportsIn(params, Horizon(params)) by {
        ReportsInMonotone(params, steps, Horizon(params));
      }
      report := Fmod(time, params.outputInterval) < params.timestep;
      var born;
      ghost var counted, before;
      born, counted, kids, before := Sweep(time, report, row);
      Record(time, report, born, counted, kids, before);
    }

    /**
     * The bookkeeping after the sweep of the step at `time`: appends the
     * newborns, logs the step and, on a reporting step, the snapshot
     * `counted`, which the table already holds.
     */
    method Record(time: real, report: bool, born: seq<Infectee>, ghost counted: seq<State>, ghost kids: seq<seq<Infectee>>,
                  ghost before: seq<seq<Infectee>>)
      requires Runnable(params) && counters.Length0 == Rows(params) && counters.Length1 == NumStates
      requires Population(infected + born, stream, params.infectDelta, time)
      requires |kids| == |dues| == |births| && born == Flatten(kids)
      requires Grew(infected, before, dues, births, params, |sizes|)
      requires Sprouted(infected, dues, kids, lastTime, time, params.infectDelta)
      requires forall k :: 0 <= k < |infected| ==> infected[k].offspring == before[k] + kids[k]
      requires forall j :: 0 <= j < |born| ==> born[j].infectionTime == time
      requires Grown(infected + born, DuesAfter(dues, kids, |born|))
      requires Steps() && Snapshots()
      requires time == StepTime(params, |sizes| + 1) && report == IsReportStep(params, time)
      requires |sizes| > 0 ==> |infected| <= params.maxInfected
      requires CountedUpTo(counted, infected, |infected|, time)
      requires Filled(counters, if report then snaps + [counted] else snaps)
      modifies this
      ensures Inv() && Growth() && Table() && Steps() && Snapshots()
      ensures |sizes| == old(|sizes|) + 1 && lastTime == time && infected == old(infected) + born
      ensures |snaps| == old(|snaps|) + (if report then 1 else 0)
    {
      Extend(time, born, kids, before);
      assert infected[..old(|infected|)] == old(infected);
      Log(report, counted, old(lastTime), old(sizes), old(infected));
    }

    /**
     * Logs the step just run, after the population `pop` of its start was
     * extended: on a reporting step, the step's number and its snapshot
     * `counted`, which the table already holds.
     */
    method Log(report: bool, ghost counted: seq<State>, ghost last: real, ghost sizes0: seq<nat>, ghost pop: seq<Infectee>)
      requires Runnable(params) && StepLog(params, last, sizes0, reportSteps, snaps, |pop|)
      requires Snapped(params, reportSteps, snaps, pop)
      requires |pop| <= |infected| && infected[..|pop|] == pop && (|sizes0| > 0 ==> |pop| <= params.maxInfected)
      requires sizes == sizes0 + [|infected|] && lastTime == StepTime(params, |sizes|)
      requires report == IsReportStep(params, lastTime)
      requires CountedUpTo(counted, pop, |pop|, lastTime)
      requires Filled(counters, if report then snaps + [counted] else snaps)
      modifies this`reportSteps, this`snaps
      ensures Table() && Steps() && Snapshots()
      ensures |snaps| == old(|snaps|) + (if report then 1 else 0)
    {
      if report {
        reportSteps := reportSteps + [|sizes|];
        snaps := snaps + [counted];
      }
      StepLogNext(params, last, sizes0, old(reportSteps), old(snaps), |pop|,
                  lastTime, sizes, reportSteps, snaps, |infected|, report, counted);
      SnappedNext(params, old(reportSteps), old(snaps), pop, reportSteps, snaps, infected, report, |sizes|, counted);
    }

    /**
     * Append, given what the sweep of the step at `time` left: the offspring
     * lists `before` it, the children kids[k] each member spawned in it.
     */
    method Extend(time: real, born: seq<Infectee>, ghost kids: seq<seq<Infectee>>, ghost before: seq<seq<Infectee>>)
      requires Runnable(params) && counters.Length0 == Rows(params) && counters.Length1 == NumStates
      requires Population(infected + born, stream, params.infectDelta, time)
      requires |kids| == |dues| == |births| && born == Flatten(kids)
      requires Grew(infected, before, dues, births, params, |sizes|)
      requires Sprouted(infected, dues, kids, lastTime, time, params.infectDelta)
      requires forall k :: 0 <= k < |infected| ==> infected[k].offspring == before[k] + kids[k]
      requires forall j :: 0 <= j < |born| ==> born[j].infectionTime == time
      requires Grown(infected + born, DuesAfter(dues, kids, |born|))
      requires lastTime == StepTime(params, |sizes|) && time == StepTime(params, |sizes| + 1)
      modifies this`infected, this`lastTime, this`sizes, this`dues, this`births
      ensures Inv() && Growth()
      ensures infected == old(infected) + born && lastTime == time && sizes == old(sizes) + [|infected|]
      ensures dues == DuesAfter(old(dues), kids, |born|) && births == BirthsAfter(old(births), kids, |born|)
    {
      assert Grew(infected + born, OffspringOf(infected + born), DuesAfter(dues, kids, |born|),
                  BirthsAfter(births, kids, |born|), params, |sizes| + 1) by {
        SweptGrown(before, kids, born, time);
      }
      Append(time, born, kids);
    }

    /**
     * Appends the newborns of the sweep at `time` to the population and
     * logs the step's population size; member k has spawned kids[k] more.
     */
    method Append(time: real, born: seq<Infectee>, ghost kids: seq<seq<Infectee>>)
      requires Runnable(params) && counters.Length0 == Rows(params) && counters.Length1 == NumStates
      requires Population(infected + born, stream, params.infectDelta, time)
      requires |kids| == |dues| == |births| && born == Flatten(kids)
      requires Grew(infected + born, OffspringOf(infected + born), DuesAfter(dues, kids, |born|),
                    BirthsAfter(births, kids, |born|), params, |sizes| + 1)
      requires lastTime == StepTime(params, |sizes|) && time == StepTime(params, |sizes| + 1)
      modifies this`infected, this`lastTime, this`sizes, this`dues, this`births
      ensures Inv() && Growth()
      ensures infected == old(infected) + born && lastTime == time && sizes == old(sizes) + [|infected|]
      ensures dues == DuesAfter(old(dues), kids, |born|) && births == BirthsAfter(old(births), kids, |born|)
    {
      infected := infected + born;
      lastTime := time;
      sizes := sizes + [|infected|];
      dues := DuesAfter(dues, kids, |born|);
      births := BirthsAfter(births, kids, |born|);
      ghost var steps := old(|sizes|) + 1;
      ghost var kept := Population(infected, stream, params.infectDelta, lastTime)
                        && Grew(infected, OffspringOf(infected), dues, births, params, steps);
      assert kept && |sizes| == steps;
    }

    /**
     * The update of member i in the sweep at `time`: its children are
     * numbered after the members and the earlier newborns `born`.
     */
    method Visit(i: nat, time: real, born: seq<Infectee>) returns (children: seq<Infectee>, status: nat)
      requires Runnable(params) && i < |infected| && lastTime < time
      requires forall k :: 0 <= k < |infected| ==> infected[k].id == k
      requires DrawnAt(infected, i, 0, stream) && infected[i].SettledAs(infected[i].pos, lastTime)
      requires infected[i].Paced(params.infectDelta)
      requires forall k :: 0 <= k < |infected| ==> Linked(infected, k, infected + born)
      requires Numbered(born, |infected|, stream, time) && Untouched(born)
      modifies infected[i]
      ensures infected[i].SettledAs(infected[i].pos, time) && infected[i].Paced(params.infectDelta)
      ensures infected[i].offspring == old(infected[i].offspring) + children
      ensures |children| == StepSpawns(infected[i], lastTime, time, old(|infected[i].offspring|), params.infectDelta)
      ensures status < NumStates && FromIndex(status) == infected[i].StateAt(time)
      ensures forall k :: 0 <= k < |infected| ==> Linked(infected, k, infected + (born + children))
      ensures Numbered(born + children, |infected|, stream, time) && Untouched(born + children)
      ensures forall j :: 0 <= j < |children| ==> fresh(children[j]) && children[j].infector == infected[i]
    {
      var x := infected[i];
      var next := |infected| + |born|;
      BuiltWellFormed(stream(i), x.infectionTime);
      children := Advance(x, lastTime, time, params.infectDelta, stream, next);
      status := x.IStatus();
      forall k | 0 <= k < |infected| ensures Linked(infected, k, infected + (born + children)) {
        if k == i {
          assert old(Linked(infected, i, infected + born));
          assert infected + (born + children) == infected + born + children;
        } else {
          assert infected[k].id != infected[i].id;
          assert old(Linked(infected, k, infected + born));
          assert Linked(infected, k, infected + born);
          LinkedGrow(infected, k, born, children);
        }
      }
      NewbornsAppend(born, children, |infected|, next, stream, time);
    }

    /**
     * On a reporting step, adds one to column c, the number of state s, of
     * row `row`, which so far counts the statuses `counted`; otherwise
     * leaves the table alone.
     */
    method Tally(report: bool, row: nat, c: nat, ghost s: State, ghost counted: seq<State>)
      requires c < NumStates && FromIndex(c) == s
      requires report ==> row < counters.Length0 && counters.Length1 == NumStates
      requires report ==> forall c :: 0 <= c < NumStates ==> counters[row, c] == Count(counted, FromIndex(c))
      modifies counters
      ensures report ==> forall c :: 0 <= c < NumStates ==> counters[row, c] == Count(counted + [s], FromIndex(c))
      ensures forall r, c :: 0 <= r < counters.Length0 && 0 <= c < counters.Length1 && (!report || r != row) ==>
        counters[r, c] == old(counters[r, c])
    {
      CountSnoc(counted, s);
      if report {
        counters[row, c] := counters[row, c] + 1;
        forall c' | 0 <= c' < NumStates && c' != c ensures FromIndex(c') != s {
          assert Index(FromIndex(c')) != Index(FromIndex(c));
        }
      }
    }

    /** One iteration of the sweep: member i updated and counted. */
    method Step(i: nat, time: real, report: bool, row: nat, born: seq<Infectee>, ghost counted: seq<State>,
                ghost before: seq<seq<Infectee>>, ghost kids: seq<seq<Infectee>>)
      returns (born': seq<Infectee>, ghost counted': seq<State>, ghost kids': seq<seq<Infectee>>)
      requires Runnable(params) && i < |infected| && lastTime < time && Roster(infected, stream)
      requires SweptUpTo(infected, before, kids, i, lastTime, time, params.infectDelta)
      requires Nursery(infected, born, stream, time) && CountedUpTo(counted, infected, i, time)
      requires report ==> RowCounts(counters, row, counted)
      modifies infected[i], counters
      ensures SweptUpTo(infected, before, kids', i + 1, lastTime, time, params.infectDelta)
      ensures Nursery(infected, born', stream, time) && CountedUpTo(counted', infected, i + 1, time)
      ensures report ==> RowCounts(counters, row, counted')
      ensures kids'[..i] == kids && born' == born + kids'[i] && Flatten(kids') == Flatten(kids) + kids'[i]
      ensures forall x :: x in born' ==> x in born || fresh(x)
      ensures forall r, c :: 0 <= r < counters.Length0 && 0 <= c < counters.Length1 && (!report || r != row) ==>
        counters[r, c] == old(counters[r, c])
    {
      var delta := params.infectDelta;
      assert Pending(infected[i], before[i], lastTime, delta);
      var spawned, status := Visit(i, time, born);
      Tally(report, row, status, infected[i].StateAt(time), counted);
      counted' := counted + [infected[i].StateAt(time)];
      born', kids' := born + spawned, kids + [spawned];
      assert kids'[..i] == kids && kids'[..|kids'| - 1] == kids;
      forall k | 0 <= k < i + 1 ensures Swept(infected[k], before[k], kids'[k], lastTime, time, delta) {
        if k < i {
          assert infected[k].id != infected[i].id;
          assert old(Swept(infected[k], before[k], kids[k], lastTime, time, delta));
        }
      }
      forall k | i + 1 <= k < |infected| ensures Pending(infected[k], before[k], lastTime, delta) {
        assert infected[k].id != infected[i].id;
        assert old(Pending(infected[k], before[k], lastTime, delta));
      }
      CountedNext(counted, infected, i, time);
    }

    /**
     * One step at `time`, the step after step s: updates each individual
     * present at the start, in order, collecting the newborns; on a reporting
     * step adds each one's post-update status to row `row`. Returns the
     * newborns (to be appended), the statuses counted and each member's
     * children.
     */
    method Sweep(time: real, report: bool, row: nat)
      returns (born: seq<Infectee>, ghost counted: seq<State>, ghost kids: seq<seq<Infectee>>, ghost before: seq<seq<Infectee>>)
      requires Runnable(params) && Population(infected, stream, params.infectDelta, lastTime)
      requires Grew(infected, OffspringOf(infected), dues, births, params, |sizes|) && lastTime == StepTime(params, |sizes|)
      requires Filled(counters, snaps)
      requires time == StepTime(params, |sizes| + 1) && row == |snaps| && (report ==> row < counters.Length0)
      modifies counters, set x | x in infected
      ensures Population(infected + born, stream, params.infectDelta, time)
      ensures Sprouted(infected, dues, kids, lastTime, time, params.infectDelta)
      ensures Grew(infected, before, dues, births, params, |sizes|)
      ensures forall k :: 0 <= k < |infected| ==> infected[k].offspring == before[k] + kids[k]
      ensures Grown(infected + born, DuesAfter(dues, kids, |born|))
      ensures born == Flatten(kids)
      ensures forall k :: 0 <= k < |infected| ==> infected[k].offspring == old(infected[k].offspring) + kids[k]
      ensures forall j :: 0 <= j < |born| ==> fresh(born[j]) && born[j].infectionTime == time
      ensures CountedUpTo(counted, infected, |infected|, time)
      ensures Filled(counters, if report then snaps + [counted] else snaps)
    {
      before := OffspringOf(infected);
      assert lastTime < time by {
        StepTimeIncreasing(params, |sizes|, |sizes| + 1);
      }
      assert Tallied(before, dues) by {
        GrewSplit(infected, before, dues, births, params, |sizes|);
      }
      born, counted, kids := SweepAt(time, report, row, snaps, dues);

    }

    /** The growth invariant after the sweep of Sweep, with `before` the offspring lists before it. */
    lemma SweptGrown(before: seq<seq<Infectee>>, kids: seq<seq<Infectee>>, born: seq<Infectee>, time: real)
      requires Grew(infected, before, dues, births, params, |sizes|) && time == StepTime(params, |sizes| + 1)
      requires Sprouted(infected, dues, kids, StepTime(params, |sizes|), time, params.infectDelta)
      requires Roster(infected + born, stream) && born == Flatten(kids)
      requires forall j :: 0 <= j < |born| ==> born[j].infectionTime == time
      requires forall k :: 0 <= k < |infected| ==> infected[k].offspring == before[k] + kids[k]
      requires Grown(infected + born, DuesAfter(dues, kids, |born|))
      ensures Grew(infected + born, OffspringOf(infected + born), DuesAfter(dues, kids, |born|),
                   BirthsAfter(births, kids, |born|), params, |sizes| + 1)
    {
      SweptGrowth(infected, before, dues, births, kids, born, OffspringOf(infected + born), stream, params, |sizes|, time);
    }

    /** The sweep of Sweep, with `prior` the snapshots taken so far and dues[k] member k's offspring. */
    method SweepAt(time: real, report: bool, row: nat, ghost prior: seq<seq<State>>, ghost dues: seq<nat>)
      returns (born: seq<Infectee>, ghost counted: seq<State>, ghost kids: seq<seq<Infectee>>)
      requires Runnable(params) && Population(infected, stream, params.infectDelta, lastTime) && lastTime < time
      requires Grown(infected, dues)
      requires Filled(counters, prior) && row == |prior| && (report ==> row < counters.Length0)
      modifies counters, set x | x in infected
      ensures Population(infected + born, stream, params.infectDelta, time)
      ensures Sprouted(infected, dues, kids, lastTime, time, params.infectDelta)
      ensures Grown(infected + born, DuesAfter(dues, kids, |born|))
      ensures born == Flatten(kids)
      ensures forall k :: 0 <= k < |infected| ==> infected[k].offspring == old(infected[k].offspring) + kids[k]
      ensures forall j :: 0 <= j < |born| ==> fresh(born[j]) && born[j].infectionTime == time
      ensures CountedUpTo(counted, infected, |infected|, time)
      ensures Filled(counters, if report then prior + [counted] else prior)
    {
      ghost var pop := infected;
      ghost var before := OffspringOf(pop);
      SweepStart(infected, before, stream, params.infectDelta, lastTime, time);
      assert Count([], Latent) == 0;
      born, counted, kids := SweepMembers(time, report, row, before);
      SweepDone(infected, before, kids, born, dues, stream, params.infectDelta, lastTime, time);
      forall j | 0 <= j < |born| ensures fresh(born[j]) {
        assert born[j] in born;
      }
      ghost var snaps' := if report then prior + [counted] else prior;
      forall r, c | 0 <= r < |snaps'| && 0 <= c < NumStates ensures counters[r, c] == Count(snaps'[r], FromIndex(c)) {
        if r < |prior| {
          assert snaps'[r] == prior[r];
        }
      }
    }

    /**
     * The loop of the sweep: member by member, in order, the update at
     * `time` and, on a reporting step, the count of its status.
     */
    method SweepMembers(time: real, report: bool, row: nat, ghost before: seq<seq<Infectee>>)
      returns (born: seq<Infectee>, ghost counted: seq<State>, ghost kids: seq<seq<Infectee>>)
      requires Runnable(params) && lastTime < time && Roster(infected, stream)
      requires SweptUpTo(infected, before, [], 0, lastTime, time, params.infectDelta) && Nursery(infected, [], stream, time)
      requires report ==> RowCounts(counters, row, [])
      modifies counters, set x | x in infected
      ensures SweptUpTo(infected, before, kids, |infected|, lastTime, time, params.infectDelta)
      ensures Nursery(infected, born, stream, time) && CountedUpTo(counted, infected, |infected|, time)
      ensures born == Flatten(kids) && forall x :: x in born ==> fresh(x)
      ensures report ==> RowCounts(counters, row, counted)
      ensures forall r, c :: 0 <= r < counters.Length0 && 0 <= c < counters.Length1 && (!report || r != row) ==>
        counters[r, c] == old(counters[r, c])
    {
      born, counted, kids := [], [], [];
      var i := 0;
      while i < |infected|
        invariant 0 <= i <= |infected| && Roster(infected, stream)
        invariant born == Flatten(kids)
        invariant SweptUpTo(infected, before, kids, i, lastTime, time, params.infectDelta)
        invariant Nursery(infected, born, stream, time) && CountedUpTo(counted, infected, i, time)
        invariant forall x :: x in born ==> fresh(x)
        invariant report ==> RowCounts(counters, row, counted)
        invariant forall r, c :: 0 <= r < counters.Length0 && 0 <= c < counters.Length1 && (!report || r != row) ==>
          counters[r, c] == old(counters[r, c])
      {
        born, counted, kids := Step(i, time, report, row, born, counted, before, kids);
        i := i + 1;
      }
    }

    /**
     * A copy of the count table: one row per reporting step run, holding in
     * column c how many of the individuals swept on that step were in state
     * number c; the rows of reporting steps not run hold zeros.
     */
    method GetCounters() returns (m: seq<seq<int>>)
      requires Inv() && Table() && Steps()
      ensures |m| == Rows(params) && forall r :: 0 <= r < |m| ==> |m[r]| == NumStates
      ensures forall r, c :: 0 <= r < |snaps| && 0 <= c < NumStates ==> m[r][c] == Count(snaps[r], FromIndex(c))
      ensures forall r, c :: |snaps| <= r < |m| && 0 <= c < NumStates ==> m[r][c] == 0
      ensures |snaps| == ReportsIn(params, |sizes|) <= |m|
    {
      m := seq(counters.Length0, r requires 0 <= r < counters.Length0 reads counters =>
             seq(NumStates, c requires 0 <= c < NumStates reads counters => counters[r, c]));
    }

    /**
     * Every filled row sums to the population size at the start of its
     * step: each individual swept on that step is counted in exactly one
     * column.
     */
    lemma RowTotals()
      requires Table() && Steps()
      ensures forall r :: 0 <= r < |snaps| ==> RowSum(counters, r, NumStates) == SizeBefore(sizes, reportSteps[r])
    {
      forall r | 0 <= r < |snaps| ensures RowSum(counters, r, NumStates) == SizeBefore(sizes, reportSteps[r]) {
        RowSumIsCount(counters, r, snaps[r]);
      }
    }

    /**
     * Entry k of a filled row's snapshot is the status that individual k's
     * own draws give at that row's step; every individual counted was infected before it.
     */
    lemma SnapshotStatus(r: nat, k: nat)
      requires Inv() && Snapshots() && r < |snaps| && k < |snaps[r]|
      ensures k < |infected|
      ensures var t := StepTime(params, reportSteps[r]);
              infected[k].infectionTime < t && snaps[r][k] == StatusAt(stream(k), infected[k].infectionTime, t)
    {
      assert |snaps[r]| <= |infected|;
      assert CountedAt(snaps[r], infected, k, StepTime(params, reportSteps[r]));
      assert DrawnAt(infected, k, 0, stream);
    }

    /**
     * All individuals infected so far, in creation order: the index case
     * first, each one's cursor where the last step put it, and as many as
     * the last step left.
     */
    method GetInfected() returns (r: seq<Infectee>)
      requires Inv() && Steps()
      ensures r == infected && Population(r, stream, params.infectDelta, lastTime)
      ensures |r| == (if sizes == [] then 1 else sizes[|sizes| - 1])
    {
      r := infected;
    }

    /**
     * The reproduction-number estimate: the reported offspring of the
     * individuals whose state number is above 3, divided by how many such
     * individuals there are (None when there are none).
     */
    method GetR0() returns (r: Option<real>)
      requires Inv()
      ensures ValidAll(infected) && forall k :: 0 <= k < |infected| ==> ValidAll(infected[k].offspring)
      ensures r == EstimateOver(infected, |infected|).Value()
    {
      PopulationValid(infected, stream, params.infectDelta, lastTime);
      r := EstimateOf(infected);
    }

    /**
     * A run that ends before any individual's symptoms have ended has no
     * individual with a state number above 3, so the estimate has no value:
     * the C++ program divides zero by zero there.
     */
    lemma EstimateBeforeSymptomsEnd()
      requires Inv()
      requires forall k :: 0 <= k < |infected| ==> lastTime < infected[k].infectionTime + SymptomsEnd(stream(k))
      ensures EstimateOver(infected, |infected|).Value().None?
    {
      forall k | 0 <= k < |infected| ensures !Completed(infected[k]) {
        var x, d := infected[k], stream(k);
        assert DrawnAt(infected, k, 0, stream) && SettledAt(infected, k, lastTime);
        if x.infectionTime < lastTime {
          PathShape(d);
          EndOutcome(d, x.infectionTime);
          EndTimesAt(d, x.infectionTime);
          BuiltWellFormed(d, x.infectionTime);
          NotCompletedBeforeSymptomsEnd(x.path, x.endTimes, 0, lastTime);
        }
      }
      EstimateUndefined(infected, |infected|);
    }
  }

  /**
   * The loops of the estimate: counts the members of `pop` whose state
   * number is above 3 and, for each of them, its reported offspring.
   */
  method EstimateOf(pop: seq<Infectee>) returns (r: Option<real>)
    requires ValidAll(pop) && forall k :: 0 <= k < |pop| ==> ValidAll(pop[k].offspring)
    ensures r == EstimateOver(pop, |pop|).Value()
  {
    var nInfected, nInfectors := 0, 0;
    var i := 0;
    while i < |pop|
      invariant i <= |pop|
      invariant Estimate(nInfected, nInfectors) == old(EstimateOver(pop, i))
    {
      var x := pop[i];
      if x.IStatus() > 3 {
        nInfectors := nInfectors + 1;
        var j := 0;
        while j < |x.offspring|
          invariant j <= |x.offspring|
          invariant nInfected == old(EstimateOver(pop, i).reported + ReportedAmong(x.offspring, j))
        {
          if x.offspring[j].IsReportedNow() {
            nInfected := nInfected + 1;
          }
          j := j + 1;
        }
      }
      i := i + 1;
    }
    r := Estimate(nInfected, nInfectors).Value();
  }

  /** Every member of a population, and every offspring of one, is valid. */
  lemma PopulationValid(pop: seq<Infectee>, stream: nat -> Draws, delta: real, t: real)
    requires Population(pop, stream, delta, t)
    ensures ValidAll(pop) && forall k :: 0 <= k < |pop| ==> ValidAll(pop[k].offspring)
  {
    forall k | 0 <= k < |pop| ensures pop[k].Valid() {
      assert DrawnAt(pop, k, 0, stream) && SettledAt(pop, k, t);
      BuiltWellFormed(stream(k), pop[k].infectionTime);
    }
    forall x, c | x in pop && c in x.offspring ensures c.Valid() {
      var k :| 0 <= k < |pop| && pop[k] == x;
      var m :| 0 <= m < |x.offspring| && x.offspring[m] == c;
      assert Linked(pop, k, pop);
      assert pop[c.id] == c;
    }
  }
}
