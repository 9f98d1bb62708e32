# Verification of the e2etest engine

This project models the execution engine of the `e2etest` crate and proves what its design promises, for every tree of
groups and tests, every list of filters, every concurrency limit, every behaviour of fixtures and test bodies, and every
interleaving.

The model has these parts.

- `Paths`, `Tree`: path strings and the tree of groups and tests they address.
- `Filters`, `Selection`: the loops that compile filters, and what a compiled filter selects in the tree.
- `EventLog`: the event log with its guarded append, its counters, and the object that holds it.
- `Sorting`, `NameLists`: the sorted name lists read from the log.
- `Fixtures`, `Composites`, `FixtureManager`: the memoising recursive setup and the sweep by reference counts, as
  functions on values and as the object that is changed in place.
- `Engine`: the runner as a transition system. Each group and each test is a node with a program counter; a step is a
  record, a launch, or a piece of user code; enabled steps may be taken in any order.
- `Control`, `Scheduling`, `Concurrency`, `Lifecycle`, `Guards`, `Conservation`, `Counters`, `Collector`, `Holding`,
  `Neutrality`: what holds in every reachable state and at the end of every run.
- `Atomicity`: a setup or a sweep drawn out over many steps of others is as good as one step.
- `Termination`, `Progress`, `Completion`: every run ends, none gets stuck, which tests are executed or count as skipped,
  and exactly when no run can panic.
- `Determinism`: what user code does decides what a run records.
- `Running`, `Entry`: the program in its own form, with recursive methods and loops that work on one log and one
  manager. Each method is proved to take steps of the engine only, so that everything proved of runs holds of it.

`dafny verify dfyconfig.toml` checks the whole project.

What is assumed of the inputs:

- Names are not empty and have no colon, and siblings have different names. The macros generate identifiers.
- The code of a fixture sets up only fixture types of smaller number; an acyclic dependency relation has such a
  numbering. It keeps any of the handles it got, each as often as it likes, and its teardown lets them go.

What user code does is otherwise free. A setup may pass, find nothing, or panic at any place, after any nested setups; it
may run out of time before it gets the lock. Code may shield itself from a nested setup, by a timeout of its own or by
catching a panic, and go on when that fails. A body may pass or fail. A sweep may be cut short after any number of
teardowns, by a panic or by the time. `Determinism` alone fixes what user code does: one course of code for each fixture
type, and for each group and test whether its setup runs out of time, whether its body passes and whether its sweep does.

Where the code does not do what one might expect, the model follows the code:

- A list of filters that hits nothing compiles to empty maps, and these select everything
  (`Selection.EmptyIffNothingPicked`); `Entry.MissingFilterSelectsAll` is an example.
- Tests directly in the root group are never selected by a filter that hits something
  (`Selection.RootTestsNeverSelected`); `Entry.RootTestIsLeftOut` is an example.
- A group that one filter hits as a whole and another test by test keeps the single tests only; `Entry.AddedFilterUnselects`
  is an example and `Selection.UnionIffNoMixedGroup` says exactly when it happens.
- With empty maps a subgroup without tests is entered and fails an assertion of `record`; `Entry.EmptySubgroupFails` is an
  example and `Completion.NeverPanicsIff` says exactly when it happens.

## Model

| member | source | states |
|---|---|---|
| Paths.SplitJoin | crates/e2etest/src/run.rs:115 | splitting a path string on the separator gives back the names that were joined |
| Paths.JoinInjective | crates/e2etest/src/group.rs:83 | two paths of valid names with one path string are one path |
| Paths.RSplitJoin | crates/e2etest/src/filter.rs:93 | the last separator of a listed name splits off exactly the test name |
| Paths.SentinelPrefix | crates/e2etest/src/statistics.rs:97-102 | the prefix test with the sentinel holds of two path strings iff the one path is a proper prefix of the other |
| Paths.RSplitLaw | crates/e2etest/src/filter.rs:89 | any string is split at its last separator, also among more than two colons, and only a string without one is not split |
| Paths.ContainsIsOccurs | crates/e2etest/src/filter.rs:37 | a string contains a text iff it is that text with something before and something after it |
| Tree.NamesAreJoinedPaths | crates/e2etest/src/group.rs:65-76 | every listed name is the joined tree path of a test, in the order of the listing |
| Tree.TestPathsExact | crates/e2etest/src/group.rs:65-76 | the listing names every test of the tree and nothing else |
| Tree.TestBelow | crates/e2etest/src/group.rs:65-76 | what a subgroup lists are exactly the tests below its place in the whole tree |
| Tree.ListedInOrder | crates/e2etest/src/group.rs:65-76 | tests are listed in the order of the tree: those of subgroups first, one subgroup after the other, then those of the group |
| Tree.ListedOnce | crates/e2etest/src/group.rs:65-76 | no test is listed twice |
| Filters.MatcherLaws | crates/e2etest/src/filter.rs:21-40 | a text in quotes matches exactly itself, an empty text matches everything, any other text matches what it occurs in |
| Filters.HitMeans | crates/e2etest/src/filter.rs:88-136 | a filter of two parts hits a test iff its group part accepts the group and its test part the test, and the whole group iff the test part is empty; a filter of one part hits a test iff it accepts the group or the test, and the whole group iff it accepts the group |
| Filters.UpdateGroupSet | crates/e2etest/src/filter.rs:75-83 | the fold adds every group on the way to a group, qualified by the root |
| Filters.New | crates/e2etest/src/filter.rs:62-143 | the loops compute the filter that collecting the picks of every filter from every listed name gives |
| Filters.CollectForm | crates/e2etest/src/filter.rs:84-142 | a key is present iff some pick is in that group; its set is exactly the tests picked singly; the group set is exactly the groups on the way to a pick |
| Filters.AllPicksForm | crates/e2etest/src/filter.rs:84-136 | a pick is there iff some filter takes it, whatever the order |
| Filters.OrderIsIrrelevant | crates/e2etest/src/filter.rs:62-143 | lists with the same filters, permuted or repeated, compile to the same filter |
| Selection.PlaceIsListed | crates/e2etest/src/run.rs:114-126 | the listed name of a test splits into its tree path and, joined with the root, is the path string that `run_test` builds |
| Selection.KeysForm | crates/e2etest/src/filter.rs:99-133 | the keys are the path strings of the groups with a test that some filter hits |
| Selection.EntryForm | crates/e2etest/src/filter.rs:105-134 | the set of a group holds exactly the tests that some filter hits singly |
| Selection.GroupsForm | crates/e2etest/src/filter.rs:75-83 | the group set is exactly the ancestors below the root of the tests hit |
| Selection.EmptyIffNothingPicked | crates/e2etest/src/filter.rs:145-165 | map and group set are empty together, exactly when no filter hits a test below the root; then everything is selected |
| Selection.SelectedForm | crates/e2etest/src/filter.rs:158-175 | once something is hit, a test is selected iff it is hit singly, or its group is hit and none of its tests is hit singly |
| Selection.RootTestsNeverSelected | crates/e2etest/src/filter.rs:90-94 | a filter that hits something selects no test that stands directly in the root group |
| Selection.SingleFilterSelects | crates/e2etest/src/filter.rs:84-136 | one filter that hits something selects precisely the tests below the root that its text selects, where a text in quotes stands for itself, an empty one for anything and any other for what it occurs in |
| Selection.DiffersIffOverruled | crates/e2etest/src/filter.rs:170-171 | several filters differ from the union of what each selects exactly at tests hit only with their group while a neighbour is hit singly |
| Selection.UnionIffNoMixedGroup | crates/e2etest/src/filter.rs:62-143 | several filters select the union iff no group mixes the two |
| Selection.SelectedIsReached | crates/e2etest/src/filter.rs:145-175 | if `consider_test` accepts a test, `consider_group` accepts every group above it below the root |
| Selection.EnteredHasSelected | crates/e2etest/src/filter.rs:145-156 | under a filter that hits something, a group that `consider_group` accepts has a test below it that `consider_test` accepts |
| EventLog.Statistics.Record | crates/e2etest/src/statistics.rs:110-140 | appends or adds what the event asks for if the assertion holds and changes nothing otherwise; the invariant of the log is kept |
| EventLog.RecordKeepsGuarded | crates/e2etest/src/statistics.rs:110-140 | the guard keeps it that every entry has an included test at or below its name, and every entry of a body the name of an included test |
| EventLog.SuccessIffNoFailures | crates/e2etest/src/statistics.rs:143-146 | `is_success` iff something is included and the three failure counters are zero, for every guarded log |
| EventLog.GuardIsNeeded | crates/e2etest/src/statistics.rs:132-137 | without the guard there is a log for which that fails |
| EventLog.CountIsNames | crates/e2etest/src/statistics.rs:161-188 | where no name holds two of some events, their counter counts names |
| EventLog.SettledCount | crates/e2etest/src/statistics.rs:171-224 | where no test is settled twice, passed, failed, skipped and skipped by error add up to the tests settled |
| Fixtures.NothingIsOverwritten | crates/e2etest/src/fixture.rs:125-130 | when a setup inserts its fixture, the cache holds none of that type, however the nested setups went |
| Fixtures.InsertKeeps | crates/e2etest/src/fixture.rs:126-129 | the insertion keeps the invariant of the cache and every cached instance |
| Fixtures.SetupKeeps | crates/e2etest/src/fixture.rs:118-131 | a setup, however it ends, keeps the invariant and every cached instance; if it passes, it returns the instance now cached, or the permanent one |
| Fixtures.SetupMeetsFate | crates/e2etest/src/fixture.rs:118-131 | a setup of a type that is there returns the fixture, runs no code and changes nothing; any other fails iff its code gets to a panic that nothing shields it from, is skipped iff its code makes no fixture, and leaves exactly the types that its code leaves, all told from the types that are there alone |
| Fixtures.SetupIsMemoised | crates/e2etest/src/fixture.rs:118-124 | setting up a type again returns the same instance and changes nothing |
| Fixtures.CountIsOne | crates/e2etest/src/fixture.rs:175 | `strong_count` is one iff neither a cached fixture nor anybody outside holds a handle |
| Fixtures.CountsHeld | crates/e2etest/src/fixture.rs:175 | one more handle held outside the cache makes the count one more |
| Fixtures.CountsRetained | crates/e2etest/src/fixture.rs:175 | one more handle retained by a cached fixture makes the count one more |
| Fixtures.SweepKeepsValid | crates/e2etest/src/fixture.rs:169-182 | a sweep, finished or cut short, keeps the invariant and every handle held outside |
| Fixtures.SurvivesIffReachable | crates/e2etest/src/fixture.rs:169-182 | a fixture survives a finished sweep iff it is reachable from a handle held outside the cache |
| Fixtures.SweepIsExact | crates/e2etest/src/fixture.rs:169-182 | a finished sweep leaves exactly the reachable part of the cache and tears down exactly the rest |
| Fixtures.UnheldCacheIsEmptied | crates/e2etest/src/fixture.rs:169-182 | with no handle outside, a finished sweep empties the cache |
| Fixtures.SweepIsConfluent | crates/e2etest/src/fixture.rs:171-181 | any two finished sweeps, in whatever order the map is visited, leave the same cache and tear down the same fixtures |
| Fixtures.SweepInDependencyOrder | crates/e2etest/src/fixture.rs:80-87 | a fixture is torn down only after every fixture that retains it, and its count is one then, so `try_unwrap` succeeds |
| Fixtures.SweepCanFinish | crates/e2etest/src/fixture.rs:170-181 | a sweep can always be finished, with at most one teardown for each cached fixture |
| Fixtures.SweepIsOneStep | crates/e2etest/src/fixture.rs:34-39 | a sweep in whose passes handles are dropped outside the lock, any number of times and anywhere, is a sweep, and if its last pass finds nothing a finished one, with the holders as they were when the last pass started |
| Composites.BuiltRetains | crates/e2etest/src/fixture.rs:118-131 | what a built fixture retains: for each place its code keeps, the handle the manager then returns for the type the code was given there, as often as it was kept, and nothing else; over nested setups that pass, are skipped or fail with the code going on, and fetches |
| Composites.CompositeRetains | crates/e2etest-macros/src/lib.rs:187-196 | a fixture made of others, each of whose setups passes, is built and retains the handles to the parts it keeps, each as often as it is kept, and nothing else |
| Composites.SweepSparesKept | crates/e2etest/src/fixture.rs:169-182 | while a fixture is held, no sweep tears down anything that its code kept, whatever else was set up or torn down since |
| Collector.OtherStepsShrink | crates/e2etest/src/fixture.rs:29-39 | no step but a setup, which needs the lock, gives a test or group a handle that it did not have |
| Atomicity.SweepIsEnabled | crates/e2etest/src/fixture.rs:29-39 | in any stretch of a run in which a sweep has the lock, while others take steps that do not need it and drop handles at any time: what the sweep does is what the engine may do in one step at the time when its last pass starts |
| Atomicity.SweepIsAtomic | crates/e2etest/src/fixture.rs:29-39 | so the run with such a drawn-out sweep ends in the state of a run that takes the sweep in one step and is otherwise the same |
| Atomicity.SetupIsAtomic | crates/e2etest/src/fixture.rs:29-32 | so does the run in which others take steps while a setup has the lock |
| FixtureManager.Inner.constructor | crates/e2etest/src/fixture.rs:156-167 | the manager starts with the permanent types and an empty cache |
| FixtureManager.Inner.Get | crates/e2etest/src/fixture.rs:133-145 | returns the permanent fixture, or else the cached one: a live handle of the type asked for; none iff the type is neither permanent nor cached |
| FixtureManager.Inner.Setup | crates/e2etest/src/fixture.rs:118-131 | the recursive insertion in place computes the specified setup, with the same result |
| FixtureManager.Inner.RunCode | crates/e2etest/src/fixture.rs:67-69 | the calls that the code of a fixture makes, one after another, compute the specified outcome |
| FixtureManager.Inner.Pass | crates/e2etest/src/fixture.rs:173-180 | one pass over the map extracts only fixtures with count one when their turn comes, and, unless it is cut short, all that had count one when it began; a pass that extracts none leaves none with count one |
| FixtureManager.Inner.Teardown | crates/e2etest/src/fixture.rs:169-182 | the loop is a sweep, ends, and if it is not cut short leaves exactly the reachable part of the cache |
| Control.RunIsControlled | crates/e2etest/src/group.rs:78-157 | in every reachable state every node stands at a place the filter lets the engine reach, under an open parent while it is active, and the loops of each group are in order |
| Scheduling.AncestorsAreOpen | crates/e2etest/src/group.rs:109-144 | while a node is active every group above it is open |
| Scheduling.ActiveNodesMeet | crates/e2etest/src/group.rs:111-141 | of two active nodes one is above the other, or both are tests of one group |
| Scheduling.RunIsBounded | crates/e2etest/src/group.rs:126 | in every reachable state at most `max(1, concurrency)` tests of a group are in flight |
| Scheduling.TestsAtOnce | crates/e2etest/src/run.rs:68-71 | in every reachable state at most `max(1, concurrency)` tests are active in the whole tree |
| Concurrency.TestsStartInOrder | crates/e2etest/src/group.rs:119-126 | in every reachable state, where a wanted test that may run beside others was launched, so were all such tests before it |
| Concurrency.NextTestCanStart | crates/e2etest/src/run.rs:68-71 | while fewer tests of a group are active than are configured, or one if that is zero, the next one that may run beside others may be launched |
| Concurrency.LimitIsReached | crates/e2etest/src/group.rs:119-129 | from every state in which a group is open and none of its tests launched, some run has as many of its tests active at once as may run at once and are wanted, up to the concurrency configured |
| Scheduling.FlagIsConjunction | crates/e2etest/src/run.rs:73-75 | in every reachable state the flag that an open group hands down is on iff the fixtures of the group and of every group above it allow concurrent tests |
| Scheduling.RunHasFlagsRight | crates/e2etest/src/run.rs:73-79 | in every reachable state the flag of each test, and of each group until it closes, is that of its place in the tree |
| Scheduling.OverlappingTestsAreAllowed | crates/e2etest/src/group.rs:119-141 | two tests that overlap are in one group and are both allowed by their own fixture and those of all groups above: a test that is not allowed overlaps no other |
| Lifecycle.RunIsLogged | crates/e2etest/src/task.rs:20-78 | in every reachable state the log holds for each node exactly the events of its place in its program, and no others |
| Lifecycle.LifecycleGrammar | crates/e2etest/src/task.rs:20-78 | in every reachable state the events of one path are a prefix of a word of the lifecycle grammar, and a whole word once the node is done |
| Lifecycle.RunIsBracketed | crates/e2etest/src/group.rs:86-153 | under every interleaving the setup and the teardown events of a group bracket all events of its subtree |
| Guards.IncludedIffSelected | crates/e2etest/src/run.rs:104-127 | a test is included iff `run_group` would select it at its place, and every test is defined |
| Guards.DefinedIsPlace | crates/e2etest/src/run.rs:105-114 | the defined names are exactly those of the tests of the tree |
| Guards.IncludedBelow | crates/e2etest/src/statistics.rs:97-102 | `iter_included` of a path string finds exactly the selected tests at or below that place |
| Guards.NothingIncludedNothingRuns | crates/e2etest/src/run.rs:129-136 | if nothing is included, nothing runs |
| Guards.RunDoesNotPanic | crates/e2etest/src/statistics.rs:110-140 | no assertion of `record` fails in any run in which every subgroup that can be entered has a selected test |
| Guards.RunIsGuarded | crates/e2etest/src/statistics.rs:110-140 | in every reachable state every entry has an included test at or below its name |
| Guards.SuccessInEveryRun | crates/e2etest/src/statistics.rs:143-146 | in every reachable state of every run `is_success` says what the counters say |
| Conservation.NothingSettledTwice | crates/e2etest/src/statistics.rs:171-224 | in every reachable state no included test is counted by two entries |
| Conservation.SettledIsIncluded | crates/e2etest/src/group.rs:78-157 | when the root is done, the tests counted are exactly the included ones |
| Conservation.CountersBalance | crates/e2etest/src/statistics.rs:171-294 | at the end of every run, included = passed + failed + skipped + skipped by error; launched = passed + failed; setups launched = passed + skipped + failed = teardowns launched = passed + failed |
| Counters.CountersCountPlaces | crates/e2etest/src/statistics.rs:163-294 | in every reachable state each counter is the number of launched groups and tests whose own events say so: setup launched, passed, skipped, failed; body launched, passed, failed; teardown launched, passed, failed |
| Counters.SkippedCountTests | crates/e2etest/src/statistics.rs:191-233 | in every reachable state the counters of skipped tests count the included tests on whose way down a setup was skipped, and those on whose way one failed |
| Counters.ListedIffRecorded | crates/e2etest/src/statistics.rs:297-366 | a name is among the passed or failed names iff its own events say so |
| Collector.RunIsTended | crates/e2etest/src/fixture.rs:118-182 | in every reachable state: one instance for each type at most, no permanent type cached, retained handles live and acyclic, every handle of a test or group live |
| Collector.StepSparesHeld | crates/e2etest/src/fixture.rs:169-182 | no step of any run removes a fixture that a test or an open group holds, directly or through retained handles |
| Holding.FixtureIsLive | crates/e2etest/src/test.rs:77-100 | in every reachable state the fixture of a test or group, from the return of its setup to the drop, is live, is of its own type, and so is all that it retains live; its count is at least two, and three while the body runs |
| Holding.SweepsSpareFixture | crates/e2etest/src/fixture.rs:169-182 | no sweep that may be taken tears it down, or anything it retains |
| Holding.OnlyDropLetsGo | crates/e2etest/src/test.rs:88-100 | no other step takes the handle away, and the drop comes only when the outcome of the body is recorded, or the loops of the group are through |
| Holding.FixtureStays | crates/e2etest/src/test.rs:65-100 | between its setup and its drop a test or group has one and the same handle to one fixture, which stays as it was set up |
| Collector.SweepLeavesReachable | crates/e2etest/src/group.rs:147-153 | a sweep that passes leaves exactly what the tests and groups reach, whatever failed before |
| Collector.RootTeardownEmptiesCache | crates/e2etest/src/group.rs:143-153 | if the last teardown of the root passes, the cache is empty, whatever failed before |
| Collector.AncestorKeepsItsFixture | crates/e2etest/src/group.rs:94-144 | while anything in its subtree runs, a group holds one and the same live instance, of its own fixture type |
| Collector.RunIsTyped | crates/e2etest/src/fixture.rs:133-145 | in every reachable state every handle of a test or group is one of its own fixture type |
| Collector.InstancesAreConserved | crates/e2etest/src/fixture.rs:118-182 | instances created = cached + teardowns completed + teardowns broken off, at most one of these for each failed sweep, so none where no sweep failed; each instance is torn down once, and none is of a permanent type |
| Neutrality.SinceHolds | crates/e2etest/src/group.rs:109-141 | while children of a group run, what was reached before stays cached; once a child was launched, some child has yet to pass its sweep, or nothing else is cached |
| Neutrality.ChildrenAreCacheNeutral | crates/e2etest/src/group.rs:94-153 | between two times at which a group is quiet, with children run in any interleaving, with any failed or skipped setups, and no failed teardown among them: the manager is as it was if no child was launched, and otherwise the cache holds exactly the instances that were reached before |
| Neutrality.ExactCacheIsKept | crates/e2etest/src/group.rs:94-153 | so, where the cache held exactly what was reached before, the very same cache is left |
| Neutrality.SweepMakesExact | crates/e2etest/src/test.rs:78-109 | after any sweep that passes, the cache holds exactly what is reached |
| Termination.StepComesCloser | crates/e2etest/src/group.rs:78-157 | every step of the engine, in every state, makes one measure smaller |
| Termination.EveryRunEnds | crates/e2etest/src/group.rs:78-157 | no run takes more than ten steps for each group and test, and one for a panic |
| Progress.SomeStepCanBeTaken | crates/e2etest/src/group.rs:111-141 | no deadlock: unless it has panicked, included nothing or finished the root, the engine can take a step |
| Progress.StuckIsDone | crates/e2etest/src/run.rs:129-136 | a run that cannot go on has panicked, had nothing to run, or finished the root |
| Completion.CompiledIsReached | crates/e2etest/src/filter.rs:145-175 | for every list of filters, the groups above a selected test are all entered |
| Completion.CompiledHasSelectedIff | crates/e2etest/src/filter.rs:145-156 | every subgroup entered has a selected test iff some filter hits something or every subgroup has a test |
| Completion.RunCanFinish | crates/e2etest/src/group.rs:78-157 | from every state of every run, whatever failed before, the run can be finished |
| Completion.ExecutedIffSetupsPassed | crates/e2etest/src/group.rs:112-141 | in every finished run an included test was executed exactly once, between its setup and its teardown, iff its own setup and those of all groups above it passed; otherwise its body was never launched |
| Completion.CountedIffStopped | crates/e2etest/src/statistics.rs:191-224 | in every reachable state an included test counts as skipped iff the first setup on its way that did not pass was skipped, and as skipped by a fixture error iff that setup failed |
| Completion.LaunchedHasSelected | crates/e2etest/src/statistics.rs:132-137 | a group that was launched without a panic has a selected test below it |
| Completion.NeverPanicsIff | crates/e2etest/src/statistics.rs:110-140 | for every list of filters, once something is included: no run fails an assertion of `record` iff some filter hits something or every subgroup has a test |
| Determinism.MemoIsInvisible | crates/e2etest/src/fixture.rs:118-131 | a setup ends as it would if every nested setup ran anew: it does not matter which of the types whose code makes a fixture are cached |
| Determinism.RecordIsExpected | crates/e2etest/src/group.rs:78-157 | in every finished run, whatever the interleaving, the events of each path are those told from what user code does, the tree and the filter alone |
| Determinism.EventsMeetBehaviour | crates/e2etest/src/task.rs:20-78 | in every finished run an event is recorded for a place iff what user code does calls for it: a passed body iff the body passes, a skipped setup iff it makes no fixture, and so on for each kind of event |
| Determinism.InterleavingIsInvisible | crates/e2etest/src/group.rs:119-141 | where user code behaves in the same way, two finished runs record the same events of each path in the same order, have the same counters and name lists and are both a success or neither, whatever the interleaving, the order of each sweep and the limit of concurrency |
| Determinism.RunOfCanFinish | crates/e2etest/src/group.rs:78-157 | however user code behaves, every run of it can be continued until it has panicked or finished the root |
| NameLists.TestsPassedNames | crates/e2etest/src/statistics.rs:297-308 | the list holds the names of the passed tests, ascending and each once |
| NameLists.TestsSkippedNames | crates/e2etest/src/statistics.rs:311-330 | so does the list of skipped tests, those of skipped groups included |
| NameLists.TestsSkippedByFixtureErrNames | crates/e2etest/src/statistics.rs:333-352 | so does the list of tests skipped by a fixture error |
| NameLists.AllFailedNames | crates/e2etest/src/statistics.rs:355-366 | so does the list of all that failed; given that something is included, it is empty iff the run is a success |
| NameLists.ListsMatchCounters | crates/e2etest/src/statistics.rs:171-352 | in every reachable state the lists of passed tests, of skipped ones and of those skipped by a fixture error have no name in common, and each is as long as its counter says |
| NameLists.FailedListHolds | crates/e2etest/src/statistics.rs:355-366 | in every reachable state an included test is in the list of all that failed iff it failed itself, its own setup did, or its teardown did; if it is also in the list of the passed or of the skipped, its teardown failed |
| NameLists.ListsPartition | crates/e2etest/src/statistics.rs:297-366 | at the end of every run, every included test is in the list of the passed, of the skipped or of those skipped by a fixture error, or in none of these and then in that of all that failed; the three lists and the counter of failed tests add up to the included tests |
| Sorting.Dedup | crates/e2etest/src/statistics.rs:306 | removing equal neighbours from a sorted list leaves an ascending list of the same names |
| Sorting.LessIsLexicographic | crates/e2etest/src/statistics.rs:305 | the order is that of the characters at the first difference, a proper prefix coming first |
| Sorting.ListIsUnique | crates/e2etest/src/statistics.rs:305-306 | there is only one ascending list of given names, so each list is determined by the events |
| Running.RunContext.constructor | crates/e2etest/src/run.rs:97-102 | a context starts with an empty log and a fresh manager |
| Running.RunContext.Record | crates/e2etest/src/statistics.rs:110-140 | an event whose assertion fails panics and records nothing |
| Running.RunContext.SetUp | crates/e2etest/src/task.rs:20-42 | takes the launch, the setup and the record of its outcome as steps of the engine, and returns where that leaves the node |
| Running.RunContext.Test | crates/e2etest/src/task.rs:63-78 | takes the launch, the body and the record of its outcome as steps of the engine |
| Running.RunContext.TearDown | crates/e2etest/src/task.rs:45-60 | takes the launch, the sweep and the record of its outcome as steps of the engine, after which the node is done |
| Running.RunContext.RunTest | crates/e2etest/src/test.rs:63-113 | runs one test to its end by steps of the engine and changes no other node |
| Running.RunContext.Resume | crates/e2etest/src/test.rs:66-110 | a test that is polled takes its next step, as an advance of its own node only |
| Running.RunContext.RunSubgroups | crates/e2etest/src/group.rs:112-117 | the loop over the subgroups ends with every subgroup the filter wants done and no test launched |
| Running.RunContext.RunConcurrentTests | crates/e2etest/src/group.rs:119-129 | the bounded loop ends, whatever it starts or polls first, with every wanted test of the concurrent phase done and no other launched; a runtime that starts tests before it polls has had as many in flight at once as there are, up to the concurrency configured |
| Running.RunContext.RunOtherTests | crates/e2etest/src/group.rs:131-141 | the loop over the other tests ends with each wanted one done |
| Running.RunContext.RunGroup | crates/e2etest/src/group.rs:79-154 | the recursive method takes a run of the engine further by steps of the engine until the group is done, and changes no node outside its subtree |
| Running.RunContext.DefineTests | crates/e2etest/src/run.rs:104-127 | the loop over the listed names leaves the log in which the engine starts, and finds it empty iff nothing is included |
| Running.RunContext.Run | crates/e2etest/src/run.rs:88-147 | the whole program takes a run of the engine in which user code does what it does, from its start until it has panicked, had nothing to run, or finished the root |
| Entry.NothingIsLeft | crates/e2etest/src/group.rs:143-153 | at the end of every run in which no teardown failed, the cache is empty and every instance created was torn down completely |
| Entry.EveryRunEndsWell | crates/e2etest/src/lib.rs:187-203 | for every list of filters, every finished run of the engine has the properties of the entry point below |
| Entry.Run | crates/e2etest/src/lib.rs:187-203 | for every tree, list of filters and behaviour of user code, the program ends; success is what the counters say; it panics only if no filter hits anything and some subgroup is empty; otherwise all counters balance, the cache is empty if the last teardown passed, and every instance created was torn down if none failed |
| Entry.ProgramIsDeterministic | crates/e2etest/src/run.rs:88-147 | the program run twice on the same tree, filters and user code, with any limits of concurrency, records the same, if it does not panic and each sweep ends or never gets the lock |
| Entry.EmptySubgroupFails | crates/e2etest/src/group.rs:112-117 | a concrete tree with a subgroup without tests on which a run without filters fails an assertion of `record` |
| Entry.AddedFilterUnselects | crates/e2etest/src/filter.rs:170-171 | a concrete tree and filters where adding a filter takes a test away from the selection |
| Entry.MissingFilterSelectsAll | crates/e2etest/src/filter.rs:163-165 | a concrete tree and a filter that hits nothing and selects every test |
| Entry.RootTestIsLeftOut | crates/e2etest/src/filter.rs:117-121 | a concrete tree and a filter that selects a test in a subgroup and leaves out a root test of the same name |

## Left out

- Real time and the asynchronous runtime: a timeout is a choice of the behaviour of user code, and polling is a choice of
  the loop. What the runtime does with tasks in flight after an assertion of `record` has failed is not modelled; the run
  stops there.
- Setups and sweeps are single steps of the engine, since each holds the lock of the manager. `Atomicity.SweepIsAtomic` and
  `Atomicity.SetupIsAtomic` show that no outcome is lost by that; what is left out is to run two parts of user code, such
  as a setup and a body, in small steps of their own.
- How far the code of a teardown got that broke off.
- Weak references, cycles of handles, and user tasks that outlive their test.
- The handles that a body takes from inside its fixture: they lead to fixtures that the handle of the test reaches anyway.
- The sorting algorithm of the library: an insertion sort stands for it.
- The counters of defined and included tests, which are the sizes of the two sets.
- The instances of a composite fixture are those of any fixture whose code sets up others in order and retains a handle to
  each; the macros that generate it, and names, from the source text are not modelled.
- The configuration builder, default timeouts, tracing, spans, backtraces and panic hooks.
- The cluster managers for ScyllaDB, the proxy and the vector store, and the crates for DNS, firewall and TLS.
