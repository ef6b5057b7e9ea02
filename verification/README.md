# Outbreak simulator: a verified model

This project models the core of an individual-based simulator of an
infectious-disease outbreak (after Britton and Scalia Tomba, 2018). Each
infected individual is created from five random draws. The draws fix its
whole course: a 5-entry path through the eight infection states, and a
table of absolute end times, with "unset" (NaN) for the states it never
leaves. An update at a given time moves the individual's state cursor
forward past every state whose end time has been reached. While the
individual is infectious, the update also spawns children at a fixed
interval.

The outbreak driver starts from one individual infected at time 0 and runs
fixed time steps up to a horizon. Each step updates the individuals present
at its start, in creation order. The newborns are appended after the sweep.
On a reporting step, each swept individual's status adds one to a row of an
integer count table. The run stops early once the population exceeds a cap.
Afterwards the driver estimates the reproduction number: the reported
offspring of the individuals past their infectious states, divided by the
number of such individuals.

An earlier prototype of the same simulator is modelled separately, because
its update rules differ:

- an update moves at most one path entry and spawns at most one child;
- time runs in whole steps;
- newborns join the list while it is being swept;
- the states are counted once, at the end.

The modules:

- `Optional`, `States` (`states.dfy`): the optional value that stands for
  NaN. The eight states, their numbering and names. The infectious and
  reported predicates. State counts. The parameter record and its defaults.
- `Course` (`course.dfy`): the draws. The path and end-time table as
  functions of the draws. The cursor rule `Settle`. The spawn count
  `Spawns`.
- `Schedule` (`schedule.dfy`): `lrint` and `fmod` written out on exact
  reals. The number of table rows, the step times, the horizon and the
  reporting steps.
- `Individual` (`infectee.dfy`): the individual as a class. Its `update`
  has the cursor loop and the spawning loop.
- `Driver` (`outbreak.dfy`): the outbreak as a class. It has the time loop,
  the sweep, the count table, and the reproduction-number estimate.
- `Prototype` (`prototype.dfy`): the earlier simulator, with its own
  individual class, update rule and simulation loop.

The random draws are not sampled. The driver receives them as a stream
`stream: nat -> Draws`: individual number k, counted in creation order, is
built from `stream(k)`. Ghost fields of the driver log each step that ran:
the population size after it, which steps were reporting steps, and the
statuses counted on each. The contracts are stated against that log.

The prototype's list is described the same way. Member k is built from
`stream(k)`. Its cursor is where one single-entry move per whole time step,
from its first step on, puts it (`Prototype.Walked`). Its spawn steps are
the steps of its updates at which its state can infect and more than
infect_delta has passed since its latest infection (`Prototype.SpawnTimes`).
Its offspring list has one child per spawn step, infected at that step, and
its latest infection is its last spawn step. Every member but the index
case is among the offspring of an earlier member, its infector, and the
offspring lists hold exactly the members that name it, in list order
(`Prototype.Listed`). In the driver's population, too, every individual but
the index case is among the offspring of an earlier individual that
infected it.

## Model

| member | source | states |
|---|---|---|
| States.Index | infectee.hpp:11-45 | every state has a number below N_STATES = 8, in the fixed order latent … dead |
| States.FromIndex | infectee.hpp:37-45 | the state listed under each number 0..7; it is the inverse of Index |
| States.IndexBijective | infectee.hpp:37-45 | numbering is a bijection: FromIndex(Index(s)) == s, and equal numbers mean equal states |
| States.Name | infectee.hpp:37-45 | every state has a non-empty display name |
| States.NamesDistinct | infectee.hpp:37-45 | different states have different names |
| States.CanInfectByIndex | infectee.cpp:98-102 | a state can infect exactly when its number is 2 or 3 |
| States.IsReportedByIndex | infectee.hpp:54 | a state is reported exactly when its number is neither 0 nor 2 |
| States.TerminalNotInfectious | infectee.hpp:37-45 | recovered and dead are not infectious, are reported, and have numbers above 3 |
| States.CountSnoc | outbreak.cpp:59-60 | counting one more status adds one to its own column and nothing to the others |
| States.CountsSumToSize | outbreak.cpp:59-60 | the 8 per-state counts of a list of statuses add up to its length |
| States.ReportedIsTotalMinusTwoColumns | outbreak4elfi.cpp:34 | the reported count is the total minus the latent and latent-infectious columns |
| States.InfectDelta | outbreak.py:55-56 | the interval between infections times R0 is the mean infectious period, and it is positive when that mean is |
| States.DefaultsFacts | infectee.hpp:15-34 | the defaults run: horizon 364, interval 7, timestep 0.2, cap 100000, and the incubation range [0.8, 1.2] straddles 1 |
| Lists.FlattenSnoc | outbreak.cpp:53-57 | adding one member's children after the newborns so far is the same as joining the children lists with that member's list added |
| Lists.FlattenPart | outbreak.cpp:53-57 | every entry of the joined children lists is a child in some member's list |
| Lists.FlattenAt | outbreak.py:72-75 | every child in a member's list occurs in the join of the children lists |
| Lists.OffsetMonotone | outbreak.cpp:53-57 | a later member's children start in the join no earlier than an earlier member's end |
| Lists.FlattenOrder | outbreak.cpp:53-57 | of two entries of the join of the children lists, the later one comes from the same member's list or a later member's |
| Course.PathFacts | infectee.cpp:22-60 | the path has 5 entries with strictly increasing state numbers; only the last is terminal; it starts latent and its third entry is symptoms |
| Course.PathShape | infectee.cpp:22-60 | the path is 0, then 1 exactly when f > 1 (2 otherwise), then 3, then 4,6 exactly when the individual recovers (5,7 otherwise) |
| Course.EndOf | infectee.cpp:23-67 | a state has an end time exactly when it is one of the first four path entries |
| Course.EndTimes | infectee.cpp:23-24 | the end-time table has one entry per state |
| Course.EndTimesAt | infectee.cpp:23-67 | entry Index(s) of the table is the end time of state s |
| Course.EndTimesListed | infectee.cpp:23-67 | the table lists the end times of the eight states in state-number order |
| Course.ShiftInverse | infectee.cpp:67 | shifting back by −t0 undoes the shift by the infection time: the time-0 table is recovered, and unset entries stay unset |
| Course.EndTimesShifted | infectee.cpp:67 | the table of an individual infected at t0 is the time-0 table shifted by t0 |
| Course.EndTimesMeaning | infectee.cpp:29-67 | latent ends at min(L, f·L); the second state at max(L, f·L); symptoms at L+I; the outcome state at L+I+P; all relative to t0 and none before t0 |
| Course.IncubationOrder | infectee.cpp:29-40 | f·L is non-negative, at least L when f > 1 and at most L otherwise |
| Course.EndOutcome | infectee.cpp:42-66 | symptoms end at t0+L+I and the outcome state (recovering or dying) at t0+L+I+P |
| Course.OrderedIff | infectee.cpp:29-45 | end times along the path never decrease if and only if f ≤ 1 or f·L ≤ L+I |
| Course.UnorderedExample | infectee.cpp:29-45 | with L = 10, f = 1.2, I = 1 the end times along the path decrease |
| Course.BuiltWellFormed | infectee.cpp:22-67 | every path and table built from draws are well formed: increasing numbers, the first four entries set, the terminal one unset |
| Course.Settle | infectee.cpp:117-121 | the cursor only moves forward and stays on the path |
| Course.SettleStops | infectee.cpp:117-121 | the cursor stops at the first entry whose end time has not passed |
| Course.SettleSkipped | infectee.cpp:117-121 | every entry the cursor moves over has its end time passed |
| Course.TerminalAbsorbing | infectee.cpp:117-121 | from the terminal entry the cursor never moves (its end time is unset) |
| Course.SettleMonotone | infectee.cpp:117-121 | a later update time moves the cursor at least as far |
| Course.SettleCompose | infectee.cpp:117-121 | updates at t1 ≤ t2 leave the cursor where one update at t2 would |
| Course.NotCompletedBeforeSymptomsEnd | infectee.cpp:117-121 | before symptoms end, the cursor is at most on symptoms (state number at most 3) |
| Course.SettleFromStartOrdered | infectee.cpp:117-121 | with ordered end times, the settled cursor is the number of end times reached |
| Course.Stage | infectee.cpp:117-121 | the position of an individual built from draws lies on its 5-entry path |
| Course.StatusAt | infectee.cpp:117-121 | the state at a time is on the path, and terminal exactly at position 4 |
| Course.StateOverTime | infectee.cpp:29-67 | with ordered end times, the state over time is latent, then the second state, symptoms, the outcome state and the terminal state, at the listed times |
| Course.TerminalNeverInfectious | infectee.cpp:115-123 | an individual on its terminal entry never spawns |
| Course.Advanced | infectee.cpp:127 | repeated steps of a non-negative interval never move the time back |
| Course.AdvancedAdd | infectee.cpp:125-129 | a steps of delta followed by b more reach the same time as a + b steps |
| Course.AdvancedIsMultiple | infectee.cpp:127 | n steps of delta from t reach t + n·delta |
| Course.SpawnsExact | infectee.cpp:125-129 | the spawn count n leaves at most delta of the gap, a child is spawned only when more than delta elapsed, and n·delta < gap |
| Course.SpawnsMonotone | infectee.cpp:125-129 | a larger gap never gives fewer children |
| Course.SpawnsResume | infectee.cpp:125-129 | after n of the Spawns(gap) children, the gap left once n intervals are taken off gives exactly the rest |
| Course.SpawnsCatchUp | infectee.cpp:125-129 | an individual infected at t0 with b children, no more than are due by t, makes Spawns(t − t0) in all once it spawns at t from its last infection t0 + b·delta |
| Schedule.Lrint | outbreak.cpp:38 | the result is within 1/2 of x, and even on a tie |
| Schedule.LrintNearest | outbreak.cpp:38 | away from a tie, Lrint gives the unique nearest integer |
| Schedule.LrintNonNegative | outbreak.cpp:38 | non-negative arguments round to non-negative integers |
| Schedule.Trunc | outbreak.cpp:59 | rounding toward zero: for x ≥ 0 an integer n ≥ 0 with n ≤ x < n + 1; for x < 0 an integer n ≤ 0 with n − 1 < x ≤ n |
| Schedule.FmodOfMultiple | outbreak.cpp:59 | a whole multiple of the interval leaves no remainder |
| Schedule.Rows | outbreak.cpp:38-39 | the table has lrint(max_time / output_interval) rows: within 1/2 of the quotient |
| Schedule.StepTimeIsMultiple | outbreak.cpp:45-84 | step k runs at time k·timestep |
| Schedule.StepTimeIncreasing | outbreak.cpp:45-84 | step times increase strictly with the step number |
| Schedule.StepTimeNonNegative | outbreak.cpp:45-84 | no step runs before time 0 |
| Schedule.HorizonExact | outbreak.cpp:45-46 | the last step run is within max_time and the next one is beyond it |
| Schedule.WithinHorizon | outbreak.cpp:46 | step k runs exactly when its time is within max_time |
| Schedule.ReportsIn | outbreak.cpp:71-76 | there are at most k reporting steps among the first k steps |
| Schedule.ReportsInMonotone | outbreak.cpp:71-76 | fewer steps never have more reporting steps |
| Schedule.ReportsBelowIntervals | outbreak.cpp:71-76 | among steps 1..k at most floor(time of step k / output_interval) are reporting steps |
| Schedule.ReportsFit | outbreak.cpp:38-76 | for every runnable parameter set, the reporting steps of a full run never outnumber the table's rows, so no row index overflows |
| Schedule.DefaultsSchedule | outbreak.cpp:38-39 | under the defaults the table has 52 rows and the step at time 7 reports |
| Individual.Infectee.constructor | infectee.cpp:9-71 | a new individual has the path and the time-shifted end times of its draws, its cursor at latent, its last infection at its infection time, and no offspring |
| Individual.Infectee.CursorMonotone | infectee.cpp:117-121 | a later time never puts the cursor further back |
| Individual.Infectee.Status | infectee.cpp:92-96 | the current state is on the path and is terminal exactly at the last entry |
| Individual.Infectee.IStatus | infectee.cpp:86-90 | the current state number is below 8 and names the current state |
| Individual.Infectee.StatusName | infectee.cpp:92-96 | the name is the current state's name and the name of no other state |
| Individual.Infectee.CanInfectNow | infectee.cpp:98-102 | true exactly when the state number is 2 or 3 |
| Individual.Infectee.IsReportedNow | infectee.hpp:54 | true exactly when the state number is neither 0 nor 2 |
| Individual.Infectee.TimeNext | infectee.cpp:104-108 | the current end time is unset exactly in the terminal state |
| Individual.Infectee.Infect | infectee.cpp:73-84 | returns `other` and appends it to the offspring, so n_infected grows by one; cursor and last infection unchanged |
| Individual.Infectee.Update | infectee.cpp:110-133 | the cursor settles at `time`. If the individual was infectious at the start or passed an infectious state, exactly Spawns(time − last infection) children follow, each new, infected by it at `time` and appended in order, and n_infected grows by that many; otherwise nothing else changes |
| Individual.Infectee.Spawn | infectee.cpp:123-130 | the spawning loop makes Spawns(gap) children, appends them, and moves the last infection on by that many intervals |
| Individual.Infectee.InfectAt | infectee.cpp:125-129 | one spawn: the last infection moves on by delta and a new child is appended |
| Driver.LinkedGrow | outbreak.cpp:63-68 | appending individuals keeps every offspring link |
| Driver.PopulationDistinct | outbreak.cpp:63-68 | no individual occurs twice in the population |
| Driver.ExtendsAppend | outbreak.cpp:63-68 | appending keeps the earlier population as the prefix |
| Driver.CountedNext | outbreak.cpp:59-60 | counting member i's post-update state extends the counted statuses by one, in member order |
| Driver.LastInfectious | infectee.cpp:115-121 | the last of steps 1..j at which the update moved the individual through an infectious state, or 0 |
| Driver.SpawnedByClosedForm | infectee.cpp:115-130 | after j steps an individual has Spawns(time of its last infectious step − its infection time) children, and none if it was never infectious |
| Driver.StepSpawnsCatchUp | infectee.cpp:123-129 | an infectious update at step j brings the children up to Spawns(time of step j − infection time) |
| Driver.StepSpawnsAtStep | infectee.cpp:115-130 | the children of the update at step j: Spawns of the time since the last infection when it is infectious, none otherwise |
| Driver.SpawnsCaughtUp | infectee.cpp:123-129 | an infectious update from `last` to `time` brings an individual with b children up to Spawns(time − infection time) |
| Driver.SpawnedBeforeInfection | infectee.cpp:115-123 | an individual that starts latent spawns nothing in the steps up to its own infection |
| Driver.DuesAfter | outbreak.cpp:53-68 | after a sweep each member's offspring count grows by its children, and each newborn has none |
| Driver.DueNext | outbreak.cpp:49-68 | after step s + 1 every member has spawned, in all, what steps 1..s + 1 give it, and the newborns nothing |
| Driver.BirthTimes | infectee.cpp:125-129 | the infection times of an individual's children after steps 1..j, as many as SpawnedBy gives, each update's children infected at its step time |
| Driver.BirthTimesAt | infectee.cpp:125-129 | child m after steps 1..j was spawned by the first step s that left the individual with more than m children, and infected at the time of step s |
| Driver.BirthTimesNext | infectee.cpp:125-129 | an update at step s + 1 that appends children all infected at its step time extends the birth times by exactly those children's times |
| Driver.ScheduledNext | outbreak.cpp:49-68 | after step s + 1 every member's offspring carry the birth times that steps 1..s + 1 give it, and the newborns none |
| Driver.DatedNext | outbreak.cpp:49-68 | appending each member's children to its offspring list keeps the list's length the recorded count and its infection times the recorded times, the counts and times grown by the children's, and the newborns' empty |
| Driver.GrewSplit | outbreak.cpp:49-68 | the growth invariant after s steps gives each member its count and birth times, member by member |
| Driver.GrewJoin | outbreak.cpp:49-68 | member-by-member counts and birth times give the growth invariant after s steps |
| Driver.GrowthNext | outbreak.cpp:49-68 | the growth invariant after step s, a sweep that gives each member its StepSpawns children all infected at the step time, and newborns with no offspring give the growth invariant after step s + 1 |
| Driver.SweptGrowth | outbreak.cpp:49-68 | the growth invariant carries over the sweep of step s + 1 and the appending of its newborns |
| Driver.OffspringAppended | outbreak.cpp:63-68 | after the newborns are appended, member k's offspring list is its list before the sweep followed by its children, and a newborn's list is empty |
| Driver.Advance | outbreak.cpp:51 | one update of a settled individual settles it at the new time, keeps its last infection one delta per child on from its infection, and appends exactly StepSpawns children to its offspring: numbered, untouched, infected by it |
| Driver.NewbornsAppend | outbreak.cpp:53-57 | collecting newborns in visiting order keeps them numbered consecutively and untouched |
| Driver.SweepStart | outbreak.cpp:49-51 | at the start of a sweep every member is pending: settled at the previous step, with its offspring so far |
| Driver.SweepDone | outbreak.cpp:49-69 | the swept members followed by the newborns form the population at the step time; member k's offspring grew by exactly its StepSpawns children |
| Driver.StepLogNext | outbreak.cpp:45-84 | one more step keeps the log of step times, sizes, cap and reporting steps |
| Driver.SizeLogNext | outbreak.cpp:78-84 | one more step within the cap keeps the sizes non-decreasing and ending at the current size |
| Driver.ReportLogNext | outbreak.cpp:71-76 | one more step keeps the reporting steps in order, each with a snapshot of the individuals present at its start |
| Driver.SnappedNext | outbreak.cpp:59-68 | recording a snapshot and appending newborns keeps every snapshot true |
| Driver.SnappedAppend | outbreak.cpp:59-60 | a new snapshot of the post-update states can be added |
| Driver.SnappedGrow | outbreak.cpp:63-68 | snapshots stay true when newborns are appended |
| Driver.Estimate.Value | outbreak.cpp:124 | no value exactly when there is no infector; otherwise a non-negative ratio with value × infectors = reported |
| Driver.ReportedAmong | outbreak.cpp:116-120 | at most n of the first n offspring are reported |
| Driver.EstimateOver | outbreak.cpp:108-122 | the denominator is at most the number of individuals looked at |
| Driver.EstimateUndefined | outbreak.cpp:108-124 | the estimate has no value exactly when no individual looked at has a state number above 3 |
| Driver.EstimateBounds | outbreak.cpp:111-122 | the numerator is at most the total offspring of the individuals past state 3 |
| Driver.RowSumIsCount | outbreak.cpp:59-60 | a row holding per-state counts of a list of statuses sums to its length |
| Driver.Outbreak.constructor | outbreak.cpp:35-86 | after the run: the population invariant (every individual but the index case has an earlier infector whose offspring list holds it), every individual's offspring what the steps run give it, each offspring list in increasing order of number and each child infected at the time of the step that spawned it, the population in order of infection time and, among one step's newborns, of infector, the table filled from the snapshots, the step log and snapshots, at most Horizon steps, and fewer only when the cap was exceeded |
| Driver.Outbreak.Run | outbreak.cpp:45-85 | the time loop keeps the invariants, the family links of every individual included, runs at most Horizon steps, stops early only past the cap, and keeps the starting population as a prefix |
| Driver.Outbreak.Tick | outbreak.cpp:48-83 | one step: one more logged step at the next step time; a row more exactly on a reporting step; the population grows by the members' children joined in member order, member k by exactly StepSpawns of them, all new and infected at the step time |
| Driver.SweepFamily | outbreak.cpp:49-68 | after a sweep every individual but the index case, old or newborn, still names an earlier individual as its infector and is among that individual's offspring |
| Driver.AscendingGrown | infectee.cpp:125-129 | a member's offspring followed by its children of the sweep still carry strictly increasing numbers below the new population size |
| Driver.OrderGrown | outbreak.cpp:49-68 | after the sweep the population stays in order of infection time and, among the newborns of one step, of infector number |
| Driver.Outbreak.Record | outbreak.cpp:63-76 | appends the newborns and logs the step and its snapshot |
| Driver.Outbreak.Append | outbreak.cpp:63-68 | the newborns are appended, the size logged, and each member's offspring count grows by its children |
| Driver.Outbreak.Extend | outbreak.cpp:63-68 | Append, given what the sweep left: the newborns are appended with the growth invariant carried over to the next step |
| Driver.Outbreak.Log | outbreak.cpp:71-76 | logs the step just run and, on a reporting step, its number and snapshot; the table, step log and snapshots stay true |
| Driver.Outbreak.SweptGrown | outbreak.cpp:49-68 | the growth invariant for the population after the sweep and its newborns, at the next step |
| Driver.Outbreak.OffspringTimes | infectee.cpp:125-129 | offspring m of member k was infected at the time of the first step run that left k with more than m children |
| Driver.Outbreak.OffspringOrder | infectee.cpp:125-129 | a member's offspring list carries strictly increasing numbers, so no individual occurs twice in it |
| Driver.Outbreak.Visit | outbreak.cpp:51-57 | member i is settled at the step time; its offspring grow by the returned children, exactly StepSpawns of them, numbered after the earlier newborns; its status number is returned |
| Driver.Outbreak.Tally | outbreak.cpp:59-60 | on a reporting step the row gains the status in its own column; no other cell changes |
| Driver.Outbreak.Step | outbreak.cpp:49-61 | one sweep iteration: member i updated, its children appended to the newborns, and its post-update state counted |
| Driver.Outbreak.Sweep | outbreak.cpp:49-61 | every member present at the start is updated once, in order; the newborns are its members' children joined in member order, member k's exactly StepSpawns; on a reporting step the row holds the per-state counts of the post-update states; other rows are unchanged |
| Driver.Outbreak.SweepAt | outbreak.cpp:49-61 | the sweep against the snapshots and offspring counts so far: the same results as Sweep |
| Driver.Outbreak.SweepMembers | outbreak.cpp:49-61 | the member loop: every member swept, the newborns its children in member order, the statuses counted into the row |
| Driver.Outbreak.GetCounters | outbreak.cpp:94-97 | a Rows × 8 copy of the table: the filled rows hold the snapshot counts, the rest zeros |
| Driver.Outbreak.RowTotals | outbreak.cpp:59-60 | every filled row sums to the population size at the start of its step |
| Driver.Outbreak.SnapshotStatus | outbreak.cpp:49-60 | entry k of a row's snapshot is the state individual k's own draws give at that step, and individual k was infected before it |
| Driver.Outbreak.GetInfected | outbreak.cpp:99-102 | all individuals, index case first, each settled at the last step, as many as the last step left |
| Driver.Outbreak.GetR0 | outbreak.cpp:104-125 | the estimate is the reported offspring of the individuals past state 3, over their number (none when there are none) |
| Driver.Outbreak.EstimateBeforeSymptomsEnd | outbreak.cpp:104-125 | a run that ends before every individual's symptoms end has no estimate |
| Driver.EstimateOf | outbreak.cpp:108-124 | the nested loops count each individual past state 3 once and, for each such individual, its reported offspring; the ratio is the estimate over the whole population |
| Driver.PopulationValid | outbreak.cpp:42-69 | every member of a population, and every offspring of one, is a well-formed individual |
| Prototype.StepOnce | outbreak.py:211-212 | one update stays on the path |
| Prototype.StepOnceTowardSettle | outbreak.py:211-212 | one prototype update moves toward the driver's settled cursor and never past it, and stays put exactly when the driver's would |
| Prototype.StepTimes | outbreak.py:211-212 | repeated prototype updates stay on the path |
| Prototype.StepTimesReachSettle | outbreak.py:211-212 | enough prototype updates at one time reach the driver's settled cursor |
| Prototype.StepTimesStay | outbreak.py:211-212 | once the driver's rule would not move, no prototype update does |
| Prototype.Walked | outbreak.py:66-75 | the cursor after one prototype update per step from the first one stays on the path |
| Prototype.WalkedBehind | outbreak.py:209-212 | the prototype's cursor after its updates up to step t is never past where the driver's update at t puts it |
| Prototype.PyName | outbreak.py:8-10 | every state has a non-empty prototype name |
| Prototype.PyNamesDistinct | outbreak.py:8-10 | different states have different prototype names |
| Prototype.Infectee.constructor | outbreak.py:109-162 | the same path and time-shifted end times as the driver's individuals, cursor at latent, last infection at the infection time, no offspring |
| Prototype.Infectee.Status | outbreak.py:161-162 | the current state is on the path and terminal exactly at the last entry |
| Prototype.Infectee.StatusName | outbreak.py:185-188 | the name is the prototype's hyphenated name of the current state and of no other state |
| Prototype.Infectee.CanInfectNow | outbreak.py:180-183 | true exactly when the state number is 2 or 3 |
| Prototype.Infectee.TimeNext | outbreak.py:190-193 | the current end time is unset exactly in the terminal state |
| Prototype.Infectee.Infect | outbreak.py:164-173 | returns `other` and appends it to the offspring; cursor and last infection unchanged |
| Prototype.Infectee.Update | outbreak.py:195-220 | exactly one StepOnce of the cursor. Then, only if the new state is infectious and more than delta has elapsed, one new child, appended, and the last infection becomes `time`; otherwise nothing else changes |
| Prototype.RollDistinct | outbreak.py:72-75 | no individual occurs twice in the list |
| Prototype.DrawnNext | outbreak.py:73-75 | newborns built from the next draws keep every member built from its own draws |
| Prototype.SpawnTimesSpaced | outbreak.py:214-218 | every spawn step of an individual up to t is one of its update steps up to t, and more than delta after the previous spawn (its own infection for the first) |
| Prototype.SpacedAppend | outbreak.py:215-217 | a spawn more than delta after the latest one keeps the spawn steps spaced |
| Prototype.SpawnTimesInfectious | outbreak.py:214-216 | an individual spawns only at steps where its updates leave it in a state that can infect |
| Prototype.SpawnTimesIncrease | outbreak.py:215-217 | with delta not negative the spawn steps strictly increase: at most one child per step |
| Prototype.SpawnTimesChain | outbreak.py:215-217 | in a chain of spawn steps each spaced by more than a non-negative delta, every later step is later |
| Prototype.SpawnTimesGrow | outbreak.py:66-75 | later steps only add spawn steps: the ones up to t begin the ones up to any later step |
| Prototype.NewbornBred | outbreak.py:160-162 | a newborn has spawned nothing and its latest infection is its own infection step |
| Prototype.BredNext | outbreak.py:214-218 | one update keeps the offspring count, the children's infection steps and the latest infection equal to what the spawn steps give |
| Prototype.ListedOffspring | outbreak.py:164-173 | in a listed population, member m is among member k's offspring exactly when it names k as its infector, and is then later in the list; offspring are in list order, one per spawn step of k and infected at that step, and k's latest infection is its last spawn step |
| Prototype.ListedBehind | outbreak.py:209-212 | every cursor of the list after step t is valid and behind the driver's at t |
| Prototype.ListedMarks | outbreak.py:66-72 | a list settled at step time − 1 is where the sweep of step time starts |
| Prototype.SweepStarts | outbreak.py:66-72 | before its first visit a sweep has grown nothing and spawned nothing |
| Prototype.IndexListed | outbreak.py:59-60 | the index case alone, infected at step 0, is a list settled at step 0: no offspring, latest infection 0 |
| Prototype.SettledListed | outbreak.py:66-75 | a settled record that matches the members' mutable parts makes the list settled |
| Prototype.OrderGrown | outbreak.py:72-75 | after the sweep the list is still in order of infection step and, among the newborns of one step, of infector number |
| Prototype.FamilyGrown | outbreak.py:72-75 | a sweep keeps the family links: every member but the index case, newborns included, is among the offspring of the earlier member that infected it, and each offspring list holds only later members that name its owner, in list order |
| Prototype.SweepSettled | outbreak.py:66-75 | after a sweep at `time` of a list settled at time − 1, the list is settled at `time`: cursors, offspring, latest infections and family links |
| Prototype.SweepCompleted | outbreak.py:72-75 | a finished member loop leaves the list settled at `time`, each original member one StepOnce on and spawning its children, each newborn a newcomer one StepOnce from the start |
| Prototype.WalksNext | outbreak.py:72-75 | member i's update moves its cursor one StepOnce; a child it returns joins the list with its cursor at the start, to be updated later in the same step |
| Prototype.WalksDone | outbreak.py:72-75 | after a sweep every member has walked to the step: an old member one StepOnce on from where it stood, a newborn one StepOnce from the start |
| Prototype.GrownNext | outbreak.py:72-75 | the list is the original one followed by the original members' children, in member order |
| Prototype.SpawningNext | outbreak.py:214-218 | each visited original member spawned exactly what its update gives |
| Prototype.NewcomersNext | outbreak.py:214-217 | a newborn spawns nothing in the step of its birth, and a child appended is a newborn of that step |
| Prototype.Simulate | outbreak.py:15-88 | after steps 1..n_iter every individual is built from its own draws, infected by then, with its cursor one StepOnce per step on; every individual but the index case is among the offspring of an earlier individual that infected it; each individual's offspring and latest infection are what its spawn steps give; the list is in order of infection step and, among one step's newborns, of infector; entry c of the result is the number of individuals in state number c |
| Prototype.Run | outbreak.py:59-75 | the index case at step 0, then one sweep per step 1..n_iter: the list is then settled at n_iter as Simulate states |
| Prototype.Tally | outbreak.py:83-86 | the final count: entry c is how many members are in state number c |
| Prototype.Bump | outbreak.py:86 | one count goes to the column of the individual's state |
| Prototype.Sweep | outbreak.py:72-75 | one step: each original member moves one StepOnce and spawns a child exactly when its new state can infect and more than delta has elapsed; the children, joined in member order, end the list, new, infected at `time`, with their cursor one StepOnce from the start; the list is settled at `time` |
| Prototype.SweepVisits | outbreak.py:72-75 | the member loop visits every member, newborns included, and leaves the sweep's record complete |
| Prototype.SweepNext | outbreak.py:73-75 | one visit moves every invariant of the sweep on to the next member |
| Prototype.Visit | outbreak.py:73-75 | member i moves one StepOnce; it spawns a child exactly when its new state can infect and more than delta has elapsed; that child is appended, new, infected by member i at `time` |
| Prototype.CountsTotal | outbreak.py:83-86 | the final counts add up to the population size |

## Left out

- Random sampling: the gamma, uniform and Bernoulli draws and the
  generators. The draws are inputs (`Draws`, `stream`). The order in which
  the C++ program and the Python prototype consume their generator is not
  modelled.
- Floating-point arithmetic. Times, periods and the estimate are exact reals.
  The driver's step time is exactly k·timestep, not an accumulated float
  sum. `fmod` and `lrint` are written out on reals. The C float division by
  zero in getR0 (inf or NaN) is modelled as no value (`None`).
- NaN end times are modelled as `None`. A comparison with NaN is false, and
  so is `Passed` on `None`.
- Driver.Outbreak.constructor relies on the reporting steps fitting in the
  table. The C++ program never checks the row index (outbreak.cpp:60, 75);
  Schedule.ReportsFit proves that they always fit.
- Driver.Outbreak.constructor requires a positive timestep, output interval
  and infection interval, and a non-negative horizon (`Runnable`). Without a
  positive timestep the C++ time loop never ends. Without a positive
  infect_delta an infectious update's spawning loop never ends
  (infectee.cpp:125-129). A non-positive output interval or a negative
  max_time stalls no loop; lrint (outbreak.cpp:38) then gives a row count
  that means nothing, and the model leaves those runs out.
- Prototype.Simulate requires R0 > 0 and a non-negative mean infectious
  period. With R0 = 0 the Python prototype divides by zero. With a negative
  interval a newborn whose first update already makes it infectious (a
  latent period of 0) spawns in the step of its own birth; the proof that
  newborns spawn nothing then (Prototype.NewcomersNext) uses the
  non-negative interval.
- The mean infectious period enters Prototype.Simulate as one number. The
  Python prototype takes it as the product of the distribution's shape and
  scale.
- `is_reported` is declared in infectee.hpp but its definition is not part
  of this model. It is modelled as "state number neither 0 nor 2", the
  reading the batch adapter (outbreak4elfi.cpp:34) and the prototype's
  report (outbreak.py:240) use.
- `n_infected` is the length of the offspring list; it is stated through
  Individual.Infectee.Infect and Individual.Infectee.Update, which give how
  much it grows. The prototype's `n_infected` is only used by `__str__`.
- The destructor, `printStats`, `main`, the verbose printing, `__str__` and
  `operator<<`: memory release and diagnostics output.
- The prototype's pandas `full_output` path and its `__main__` block.
- The batch adapter outbreak4elfi.cpp, apart from the column identity in
  States.ReportedIsTotalMinusTwoColumns.
- Course.Settle stops at the last path entry even when its end time is set.
  On every path built from draws the terminal end time is unset, so this
  guard never decides (Course.SettleStops).
- The end times along a path do not always increase. With f > 1 and
  f·L > L+I, symptoms-non-infectious ends after symptoms do. The model
  follows the code and proves exactly when the order holds
  (Course.OrderedIff, Course.UnorderedExample). Course.StateOverTime
  assumes the order.
