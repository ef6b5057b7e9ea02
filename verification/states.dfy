/** Optional values: an end time that was never set is None (the C++ program and the Python prototype use NaN). */
module Optional {
  datatype Option<+T> = None | Some(value: T)
}

/** Lists of lists. */
module Lists {
  /** The lists of `parts` joined in order: the members' children lists, joined in member order. */
  function Flatten<T>(parts: seq<seq<T>>): seq<T> {
    if parts == [] then [] else Flatten(parts[..|parts| - 1]) + parts[|parts| - 1]
  }

  /** Where part i starts in the join of `parts`: the joined length of the parts before it. */
  function Offset<T>(parts: seq<seq<T>>, i: nat): nat
    requires i <= |parts|
  {
    |Flatten(parts[..i])|
  }

  /** Part i of the join ends where part i + 1 starts. */
  lemma OffsetNext<T>(parts: seq<seq<T>>, i: nat)
    requires i < |parts|
    ensures Offset(parts, i + 1) == Offset(parts, i) + |parts[i]|
  {
    assert parts[..i + 1][..i] == parts[..i];
  }

  /** A later part starts no earlier than an earlier part ends. */
  lemma {:induction false} OffsetMonotone<T>(parts: seq<seq<T>>, i: nat, i': nat)
    requires i < i' <= |parts|
    ensures Offset(parts, i) + |parts[i]| <= Offset(parts, i')
    decreases i' - i
  {
    OffsetNext(parts, i);
    if i + 1 < i' {
      OffsetMonotone(parts, i + 1, i');
    }
  }

  /** The whole join ends where a part after the last would start. */
  lemma OffsetAll<T>(parts: seq<seq<T>>)
    ensures Offset(parts, |parts|) == |Flatten(parts)|
  {
    assert parts[..|parts|] == parts;
  }

  /**
   * A list made of `head` and the join of `parts` grows by `last` exactly
   * as the join grows when `last` is added to the parts.
   */
  lemma FlattenSnoc<T>(head: seq<T>, parts: seq<seq<T>>, last: seq<T>)
    ensures head + Flatten(parts) + last == head + Flatten(parts + [last])
  {
    assert (parts + [last])[..|parts|] == parts;
  }

  /** Entry n of the join of `parts` is entry m of part i, the part that starts at n - m. */
  lemma {:induction false} FlattenPart<T>(parts: seq<seq<T>>, n: nat) returns (i: nat, m: nat)
    requires n < |Flatten(parts)|
    ensures i < |parts| && m < |parts[i]| && Flatten(parts)[n] == parts[i][m]
    ensures n == Offset(parts, i) + m
    decreases |parts|
  {
    var init, last := parts[..|parts| - 1], parts[|parts| - 1];
    if n < |Flatten(init)| {
      i, m := FlattenPart(init, n);
      assert parts[i] == init[i] && parts[..i] == init[..i];
    } else {
      i, m := |parts| - 1, n - |Flatten(init)|;
    }
  }

  /** Entry m of part i is an entry of the join of `parts`: the one at Offset(parts, i) + m. */
  lemma {:induction false} FlattenAt<T>(parts: seq<seq<T>>, i: nat, m: nat) returns (n: nat)
    requires i < |parts| && m < |parts[i]|
    ensures n == Offset(parts, i) + m && n < |Flatten(parts)| && Flatten(parts)[n] == parts[i][m]
    decreases |parts|
  {
    var init := parts[..|parts| - 1];
    if i < |init| {
      assert parts[i] == init[i] && parts[..i] == init[..i];
      n := FlattenAt(init, i, m);
    } else {
      n := |Flatten(init)| + m;
    }
  }

  /**
   * The join keeps the order of the parts: of two entries of the join, the
   * later one comes from the same part or a later one.
   */
  lemma FlattenOrder<T>(parts: seq<seq<T>>, n: nat, n': nat) returns (i: nat, m: nat, i': nat, m': nat)
    requires n < n' < |Flatten(parts)|
    ensures i <= i' < |parts| && m < |parts[i]| && m' < |parts[i']|
    ensures n == Offset(parts, i) + m && Flatten(parts)[n] == parts[i][m]
    ensures n' == Offset(parts, i') + m' && Flatten(parts)[n'] == parts[i'][m']
  {
    i, m := FlattenPart(parts, n);
    i', m' := FlattenPart(parts, n');
    if i' < i {
      OffsetMonotone(parts, i', i);
    }
  }
}

/**
 * The infection states, their fixed numbering, the two state predicates the
 * simulation uses, and the parameter record with its defaults.
 */
module States {

  /** Number of infection states. */
  const NumStates: nat := 8

  /** The eight infection states, in their fixed numbering order 0..7. */
  datatype State =
    | Latent
    | SymptomsNonInfectious
    | LatentInfectious
    | Symptoms
    | Recovering
    | Dying
    | Recovered
    | Dead

  /** The column/array index of a state. */
  function Index(s: State): (i: nat)
    ensures i < NumStates
  {
    match s
    case Latent => 0
    case SymptomsNonInfectious => 1
    case LatentInfectious => 2
    case Symptoms => 3
    case Recovering => 4
    case Dying => 5
    case Recovered => 6
    case Dead => 7
  }

  /** The state with a given index; inverse of Index. */
  function FromIndex(i: nat): (s: State)
    requires i < NumStates
    ensures Index(s) == i
  {
    if i == 0 then Latent
    else if i == 1 then SymptomsNonInfectious
    else if i == 2 then LatentInfectious
    else if i == 3 then Symptoms
    else if i == 4 then Recovering
    else if i == 5 then Dying
    else if i == 6 then Recovered
    else Dead
  }

  /** Index is a bijection between the 8 states and 0..7. */
  lemma IndexBijective(s: State, t: State)
    ensures FromIndex(Index(s)) == s
    ensures Index(s) == Index(t) ==> s == t
  {
  }

  /** Display name of a state, as the C++ program spells it. */
  function Name(s: State): (n: string)
    ensures |n| > 0
  {
    match s
    case Latent => "latent"
    case SymptomsNonInfectious => "symptoms_non_infectious"
    case LatentInfectious => "latent_infectious"
    case Symptoms => "symptoms"
    case Recovering => "recovering"
    case Dying => "dying"
    case Recovered => "recovered"
    case Dead => "dead"
  }

  /** The names are pairwise different, so a name identifies its state. */
  lemma NamesDistinct(s: State, t: State)
    ensures Name(s) == Name(t) ==> s == t
  {
    if Name(s) == Name(t) && s != t {
    }
  }

  /** A state from which no transition leaves. */
  predicate IsTerminal(s: State) {
    s == Recovered || s == Dead
  }

  /** An individual can infect others while latent-infectious or symptomatic. */
  predicate CanInfect(s: State) {
    s == LatentInfectious || s == Symptoms
  }

  /** A case is reported unless it is latent or latent-infectious. */
  predicate IsReported(s: State) {
    s != Latent && s != LatentInfectious
  }

  /** CanInfect is exactly "index is 2 or 3". */
  lemma CanInfectByIndex(s: State)
    ensures CanInfect(s) <==> (Index(s) == 2 || Index(s) == 3)
  {
  }

  /** IsReported is exactly "index is neither 0 nor 2". */
  lemma IsReportedByIndex(s: State)
    ensures IsReported(s) <==> (Index(s) != 0 && Index(s) != 2)
  {
  }

  /** Terminal states are neither infectious nor unreported. */
  lemma TerminalNotInfectious(s: State)
    requires IsTerminal(s)
    ensures !CanInfect(s) && IsReported(s) && Index(s) > 3
  {
  }

  // ---------------------------------------------------------------------
  // Counting states in a collection of statuses.

  /** Number of entries of `ss` equal to `s`. */
  function Count(ss: seq<State>, s: State): (n: nat)
    ensures n <= |ss|
  {
    if ss == [] then 0
    else Count(ss[..|ss| - 1], s) + (if ss[|ss| - 1] == s then 1 else 0)
  }

  /** Appending one status adds one to its own count and nothing to the others. */
  lemma CountSnoc(ss: seq<State>, s: State)
    ensures forall t :: Count(ss + [s], t) == Count(ss, t) + (if s == t then 1 else 0)
  {
    assert (ss + [s])[..|ss|] == ss;
  }

  /** Number of entries of `ss` that are reported. */
  function CountReported(ss: seq<State>): (n: nat)
    ensures n <= |ss|
  {
    if ss == [] then 0
    else CountReported(ss[..|ss| - 1]) + (if IsReported(ss[|ss| - 1]) then 1 else 0)
  }

  /** Sum of the counts of the states with index below `n`. */
  function CountBelow(ss: seq<State>, n: nat): nat
    requires n <= NumStates
  {
    if n == 0 then 0 else CountBelow(ss, n - 1) + Count(ss, FromIndex(n - 1))
  }

  lemma {:induction false} CountBelowSnoc(ss: seq<State>, x: State, n: nat)
    requires n <= NumStates
    ensures CountBelow(ss + [x], n) == CountBelow(ss, n) + (if Index(x) < n then 1 else 0)
  {
    if n > 0 {
      CountBelowSnoc(ss, x, n - 1);
      assert (ss + [x])[..|ss + [x]| - 1] == ss;
      IndexBijective(x, FromIndex(n - 1));
    }
  }

  lemma {:induction false} CountBelowEmpty(n: nat)
    requires n <= NumStates
    ensures CountBelow([], n) == 0
  {
    if n > 0 {
      CountBelowEmpty(n - 1);
    }
  }

  /** Every status falls in exactly one column: the 8 counts add up to the size. */
  lemma {:induction false} CountsSumToSize(ss: seq<State>)
    ensures CountBelow(ss, NumStates) == |ss|
  {
    if ss != [] {
      var init, x := ss[..|ss| - 1], ss[|ss| - 1];
      assert init + [x] == ss;
      CountsSumToSize(init);
      CountBelowSnoc(init, x, NumStates);
      assert Index(x) < NumStates;
    } else {
      CountBelowEmpty(NumStates);
    }
  }

  /**
   * Reported cases are the total minus the latent and latent-infectious
   * columns: the batch series "row sum - column 0 - column 2" counts
   * exactly the statuses for which IsReported holds.
   */
  lemma {:induction false} ReportedIsTotalMinusTwoColumns(ss: seq<State>)
    ensures CountReported(ss) == |ss| - Count(ss, Latent) - Count(ss, LatentInfectious)
  {
    if ss != [] {
      ReportedIsTotalMinusTwoColumns(ss[..|ss| - 1]);
    }
  }

  // ---------------------------------------------------------------------
  // Parameters.

  /** Simulation parameters. The distribution shapes and scales only matter to the draws. */
  datatype Params = Params(
    latentShape: real, latentScale: real,
    incubMin: real, incubMax: real,
    infectShape: real, infectScale: real,
    pRecovery: real,
    recoverShape: real, recoverScale: real,
    dyingShape: real, dyingScale: real,
    infectDelta: real,
    maxTime: real,
    outputInterval: real,
    timestep: real,
    maxInfected: nat,
    verbose: bool)

  /** The default parameter record. */
  const Defaults: Params := Params(
    2.0, 5.0,
    0.8, 1.2,
    1.0, 5.0,
    0.3,
    4.0, 3.0,
    4.0 / 9.0, 9.0,
    2.941,
    364.0,
    7.0,
    0.2,
    100000,
    false)

  /** The parameters the time-step driver relies on. */
  predicate Runnable(p: Params) {
    p.timestep > 0.0 && p.outputInterval > 0.0 && p.infectDelta > 0.0 && p.maxTime >= 0.0
  }

  /** Mean time between infections for a target reproduction number. */
  function InfectDelta(p: Params, r0: real): (d: real)
    requires r0 > 0.0
    ensures p.infectShape * p.infectScale > 0.0 ==> d > 0.0
    ensures d * r0 == p.infectShape * p.infectScale
  {
    p.infectShape * p.infectScale / r0
  }

  /** The defaults run: horizon 364, reporting interval 7, cap 100000, and the
      incubation-factor range straddles 1. */
  lemma DefaultsFacts()
    ensures Runnable(Defaults)
    ensures Defaults.maxTime == 364.0 && Defaults.outputInterval == 7.0
    ensures Defaults.timestep == 0.2 && Defaults.maxInfected == 100000
    ensures Defaults.incubMin < 1.0 < Defaults.incubMax
  {
  }
}
