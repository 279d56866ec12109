# Claim Plane: models and proofs

Claim Plane puts a coding agent under supervision: it stores its settings in a project file, runs the
agent under a policy, seals the outcome of each run in a record that can be verified again, and
decides over a release from a matrix of validation executions. The Dafny modules here model the parts
of it whose correctness is not visible from one function alone, and prove what those parts are for.

| files | what they model |
|---|---|
| `Json`, `JsonRoundTrip` | Python's JSON printer and reader as far as the configuration needs them (strings per section 7 of RFC 8259) |
| `ConfigText`, `ConfigRoundTrip`, `ConfigLimits`, `ConfigReader` | the indented configuration format: printer, line reader with its stack, the round trip and its exact limits, and the reader again over a heap of live nested mappings |
| `ProjectConfig`, `Project`, `InitLimits` | normalising, migrating and initialising a project, with the process dying before any write |
| `Wrappers`, `Sums`, `Ordering` | optional values, sums over sequences, sorting, permutations |
| `Sweep`, `Pool` | concurrency accounting by an event sweep, and the bounded worker pool that feeds it |
| `Selection` | the round robin that selects validation tasks |
| `Dogfood`, `Aggregate`, `Gates` | frozen suite, execution plan, binding and aggregating results, and the two stacked release gates |
| `Execution` | the resumable phase machine of the validation matrix, store by store |
| `Paths` | canonical repository paths, down to `posixpath.normpath` |
| `Policy`, `Determinism`, `ControlledRun`, `StoredRun` | risk policy, sealed records, the outcome of a controlled run, and its stored form |
| `AddedLines`, `DiffText`, `Witness`, `Merge` | reading added lines out of a diff, witnessed acceptance, and the three-way merge of official tests |
| `Pump` | two reader threads, one queue, one consumer |

What the code takes from outside is a parameter: digests (a function of any length; a lemma that depends
on collisions names the texts that must not collide), shuffles (any permutation), canonical paths and file-name globbing (any
function or relation; `Paths.Canonical` is the function the code uses), `git merge-file` (any partial function), the clock (a step of its own), and the
moment at which a process dies (any).

Code that changes state in place is modelled that way and proved against a specification: the heap
reader (`ConfigReader`), the disk of a project (`Project.Disk`), the stored matrix
(`Execution.Matrix`), the candidate tree (`Merge.Tree`), and the loops of the sweep, the selector, the
sifting of results, the gates, the diff reader, the witness counters and the pump.

## Where the code does not do what it looks like

Each of these is a lemma, with the exact condition under which the code is right.

* A configuration survives printing and reading if and only if none of its strings holds U+0085,
  U+2028 or U+2029 (`ConfigLimits.RoundTripIffClean`).
* The reader of added lines cuts a diff also inside a line, at a form feed or another line boundary of
  Python. As long as no piece after a cut is taken for an added line or a hunk header, it is exact if and
  only if, read as it is cut, no added text starts with `++` and no stray counted piece or removed text
  starting with `--` has an added line after it in its hunk (`DiffText.AddedLinesExactly`). A form feed in
  an added line shifts the lines after it (`DiffText.FormFeedShiftsLines`); outside that class the reader
  can even be right by luck (`DiffText.RightByLuck`).
* Finished agent work is lost if and only if a call dies in one of two windows: between the agent's end
  and the store of ACCEPTANCE_PENDING (of the result, for a contaminated cell), or between COMPLETED and
  the result (`Execution.WorkIsLostExactlyInWindow`, with a lost run in
  `Execution.FinishedAgentRunsAgain`). Running a recorded cell again by its id is sound if and only if its
  workspace is refused, or kept and left alone (`Execution.RerunOfRecordedCell`).
* A reader thread that fails, as on a byte that does not decode, still ends its stream. A pump that ends
  without timeout or interrupt has a whole stream if and only if its reader did not fail before the last
  line, and no flag tells (`Pump.DrainedIsComplete`, `Pump.FailureIsSilent`). Only
  `run_streaming_process` decodes strictly.
* A migration that died is made good by the next one, at whatever later time, if and only if it did not die
  between the configuration and the state (`Project.MigrationResumesExactly`,
  `Project.ResumedStateIsInSync`). After that death the state keeps the digest of the old text, as on a
  legacy project of one line (`Project.StateStaysStale`), until the project is initialised again
  (`Project.InitSynchronises`).
* With well-formed keys, initialising twice is initialising once if and only if the configuration holds
  no U+0085, U+2028 or U+2029 (`InitLimits.InitIsIdempotentExactly`); a branch name can bring one in
  (`InitLimits.DirtyBranchIsNotQuiet`).
* The execution ids of a plan are unique, and the plan loads, if and only if no two identities of its own
  suite collide (`Dogfood.PlanIsTheProduct`, `Dogfood.SavedPlanLoads`).
* The compensation clause of the release gate cannot apply to collected results
  (`Gates.CompensationNeverApplies`). A matrix that is incomplete and regresses reads BLOCKED, not
  INCOMPLETE (`Gates.EvaluateDogfoodGate`).
* `interval_overlap` reports as union the stretch from first start to last finish, which is the number
  of covered instants if and only if the two intervals leave no gap (`Sweep.OverlapMeaning`).
* The preset `critical` clears no change at all, since its human gate comes before DENY
  (`Policy.ClearedExactlyWhen`).
* A canonical repository path canonicalises to itself if and only if it has no space at either end
  (`Paths.CanonicalTwice`); `x /` gives a path with a space (`Paths.SpaceIsLeft`).
* The evidence gate keeps the findings of a run it downgrades if and only if the completion is
  verified (`ControlledRun.DowngradeKeepsFindings`).

## Model

| member | source | states |
|---|---|---|
| JsonRoundTrip.RoundTrip | src/claim_plane/project.py:134-143 | Decoding a printed JSON value with any text after it returns the value and leaves that text, for every string, escapes included |
| JsonRoundTrip.LoadsOfEncode | src/claim_plane/project.py:164-177 | `json.loads` of a printed leaf is that leaf |
| ConfigRoundTrip.ReadMapping | src/claim_plane/project.py:146-155 | All printed lines of a mapping, read on any stack whose closed part is `base`, add exactly its entries, in order, to the mapping on top of `base` |
| ConfigRoundTrip.SplitOfJoin | src/claim_plane/project.py:158-161 | Lines without line boundaries, joined and ended by a newline, split into the same lines |
| ConfigRoundTrip.ReadOfDump | src/claim_plane/project.py:158-208 | Reading a printed configuration gives the same tree with the same key order at every depth, empty mappings included |
| ConfigLimits.RoundTripIffClean | src/claim_plane/project.py:134-208 | The round trip holds if and only if no string has U+0085, U+2028 or U+2029 |
| ConfigLimits.NextLineBreaksTheRoundTrip | src/claim_plane/project.py:143-183 | A one-entry configuration with U+0085 in its string does not survive |
| ConfigReader.HoldsOneTree | src/claim_plane/project.py:180-208 | A heap of nested mappings holds one tree only |
| ConfigReader.SetKey | src/claim_plane/project.py:200-207 | Assigning a key in the mapping on top changes exactly that entry of the tree, through all live mappings below it |
| ConfigReader.PopTo | src/claim_plane/project.py:196-199 | Popping the stack of live mappings leaves it in step with the specification's closed frames |
| ConfigReader.ApplyEntry | src/claim_plane/project.py:196-207 | One line with its pops, assignment and push on the heap is one step of the specification |
| ConfigReader.ReadPayload | src/claim_plane/project.py:180-208 | The reader with its mutated nested mappings ends with the tree, or the error and line number, of the specification |
| ProjectConfig.NormaliseIsStable | src/claim_plane/project.py:481-546 | Normalising a normal configuration changes nothing, in any environment of the same repository, whatever its branch, detected commands and next random id |
| ProjectConfig.StoredRule | src/claim_plane/policy.py:142-150 | A stored risk rule parses back to itself |
| Project.Disk.MigrateConfig | src/claim_plane/project.py:285-346 | The migration write by write: backup, configuration, state, or the death of the process before any of them |
| Project.Disk.InitProject | src/claim_plane/project.py:549-597 | The initialisation write by write, with the migration inside it |
| Project.OriginalIsKept | src/claim_plane/project.py:316-335 | Wherever a migration dies, the configuration is the old text or the whole new one, and the old text is in the configuration or the backup |
| Project.MigrationResumesExactly | src/claim_plane/project.py:296-335 | A second migration after a death, at another time and with another random id, branch and commands, ends with the files it would have made of the legacy project itself if and only if the death did not come between the configuration and the state; after that death it changes nothing |
| Project.ResumedStateIsInSync | src/claim_plane/project.py:325-335 | For text that reads back: after the second migration the state names the configuration beside it if and only if the first did not die between the two |
| Project.StateStaysStale | src/claim_plane/project.py:325-335 | A legacy project of one line, without a backup, whose state no second migration sets right |
| Project.LegacyIsConfig | src/claim_plane/project.py:267-282 | What a legacy configuration migrates to always has the current protocol, well-formed distinct keys and printable values |
| Project.InitSynchronises | src/claim_plane/project.py:574-597 | A finished initialisation leaves the printed normal configuration and a state with its digest and project id, from any files whatever |
| InitLimits.CleanDump | src/claim_plane/project.py:134-161 | A configuration prints without Unicode line boundaries if and only if it holds none |
| InitLimits.PartsAreClean | src/claim_plane/project.py:481-546 | Normalising a clean configuration in a clean environment gives a clean one |
| InitLimits.InitIsIdempotentExactly | src/claim_plane/project.py:549-597 | For well-formed keys, the next initialisation of the repository writes nothing if and only if no string of the configuration holds a Unicode line boundary |
| InitLimits.DirtyBranchIsNotQuiet | src/claim_plane/project.py:549-597 | A new project on a branch whose name holds U+2028: the first initialisation is finished and the next one is not quiet |
| Sweep.AggregateWorkerOverlap | experiments/cooperbench/physical_parallel.py:101-137 | The reported peak is the maximum over all instants of the intervals covering it; wall, busy time and efficiency are exact and the efficiency is at most the peak |
| Sweep.SweepEvents | experiments/cooperbench/physical_parallel.py:117-127 | The loop over events finds the highest running total |
| Sweep.LevelIsReached | experiments/cooperbench/physical_parallel.py:117-127 | With finishes sorted before starts at equal stamps, the highest running total is the level at some instant |
| Sweep.BusyIsBounded | experiments/cooperbench/physical_parallel.py:113-137 | Total busy time is at most peak times wall time, zero-length intervals included |
| Sweep.PeakIgnoresOrder | experiments/cooperbench/physical_parallel.py:117-127 | Peak and busy time are the same for every order of the intervals |
| Sweep.PairPeak | experiments/cooperbench/physical_parallel.py:76-127 | The sweep finds 2 for a pair if and only if `interval_overlap` calls it concurrent |
| Sweep.OverlapMeaning | experiments/cooperbench/physical_parallel.py:76-98 | The overlap counts the shared instants; the union counts the covered ones if and only if there is no gap |
| Pool.RunKeepsInv | experiments/cooperbench/physical_parallel.py:202-250 | Every step of every interleaving keeps the bound on occupied workers, the stamps and the logs |
| Pool.PeakIsBounded | experiments/cooperbench/physical_parallel.py:117-123 | In every run the peak computed from the recorded intervals is at most the number of workers, also when a worker starts at the instant of its last finish |
| Pool.StartsFirstOvercounts | experiments/cooperbench/physical_parallel.py:117-123 | A run of a one-worker pool in which a sweep with starts before finishes would count two active workers |
| Pool.EachCommandRunsOnce | experiments/cooperbench/physical_parallel.py:217-227 | Every command is launched at most once, and exactly once when all outcomes are in |
| Pool.SomeStepIsEnabled | experiments/cooperbench/physical_parallel.py:217-227 | Until all is collected a step other than the clock is possible and brings the end nearer |
| Selection.GroupByFamily | src/claim_plane/validation.py:702-705 | The pools partition the catalogue by family |
| Selection.RoundRobin | src/claim_plane/validation.py:722-741 | The loop terminates with the count asked for, conserves tasks, and never leaves by its break or its error |
| Selection.SomePoolIsLeft | src/claim_plane/validation.py:722-741 | While fewer tasks are chosen than the catalogue holds, some pool on the cycle is not empty |
| Selection.VisitsAreBalanced | src/claim_plane/validation.py:722-736 | Picks that follow the visits of the cycle are balanced |
| Selection.SelectValidationTasks | src/claim_plane/validation.py:691-741 | Four counts decide the outcome; a choice has the size asked for, is a sub-multiset of the catalogue, covers the required families, and gives each unexhausted family at most one pick less than any other, two less only against a required one |
| Dogfood.FreezeIgnoresOrder | src/claim_plane/dogfood.py:272-353 | Freezing yields the same suite and digest, or is refused alike, for every order of tasks and repositories, release-grade demands included |
| Dogfood.FreezeMakesFrozen | src/claim_plane/dogfood.py:272-353 | A frozen suite has unique tasks and seeds, known repositories, its own digest, the entries of the candidate, and release grade where that is demanded |
| Dogfood.BuildPlan | src/claim_plane/dogfood.py:487-542 | The nested loops emit the entries of the sorted product with commit, classes and policy, and seal the plan |
| Dogfood.BaseCommitIs | src/claim_plane/dogfood.py:493-496 | An entry is bound to the base commit of its own repository |
| Dogfood.PlanIsTheProduct | src/claim_plane/dogfood.py:487-542 | The plan is exactly tasks x seeds x arms, each combination once; its execution ids are unique if and only if no two identities of the suite collide |
| Dogfood.SavedPlanLoads | src/claim_plane/dogfood.py:422-484 | A built plan loads as it was saved if and only if no two identities of the suite collide |
| Dogfood.DigestFixesThePlan | src/claim_plane/dogfood.py:422-484 | A file that keeps the digest of a plan and loads holds that plan, unless the two collide; altered in any other way it fails to load |
| Aggregate.Sift | src/claim_plane/dogfood.py:818-840 | Observed are the first results of each id; every later occurrence is a duplicate, every id outside the plan is once unexpected, every id whose first result disagrees is once mismatched |
| Aggregate.AggregateResults | src/claim_plane/dogfood.py:807-861 | Which ids are missing, unexpected, duplicate and mismatched; results = matched + mismatched + unexpected + duplicates, expected = matched + mismatched + missing, and complete if and only if the results are a permutation of the plan's cells with all bound fields equal |
| Aggregate.CompleteIffPermutation | src/claim_plane/dogfood.py:823-860 | Nothing missing, unexpected, duplicate or mismatched if and only if the results are a permutation of the cells |
| Aggregate.RecordedCellsArePermutation | src/claim_plane/dogfood.py:686-712 | Recording each cell once through `build_dogfood_result`, in any order, aggregates as complete |
| Aggregate.RecordableIds | src/claim_plane/dogfood.py:686-712 | A result can be recorded if and only if its id is in the plan |
| Gates.AcceptedImpliesSuccess | src/claim_plane/validation.py:1467-1582 | For collected results an accepted delivery is a successful task, in every arm; outside the guarded arm the two are the same |
| Gates.GainIsBounded | src/claim_plane/dogfood.py:925-942 | For collected results the delivery gain is at most minus the success drop |
| Gates.CompensationNeverApplies | src/claim_plane/dogfood.py:942-965 | The gate blocks such results if and only if the drop exceeds the threshold |
| Gates.EvaluateDogfoodGate | src/claim_plane/dogfood.py:877-985 | Exactly when the first gate refuses, passes and blocks |
| Gates.EvaluateValidationGate | src/claim_plane/validation.py:2054-2155 | Exactly when the stacked gate passes and when it is incomplete |
| Gates.BuildValidationReport | src/claim_plane/validation.py:2213-2226 | A release of collected results passes if and only if they are a permutation of the plan, both arms are evaluated, the drop is within 5 %, and the guarded arm meets its own limits |
| Execution.Matrix.RunAcceptance | src/claim_plane/validation.py:1610-1700 | The stores of one acceptance, in order: phase, verdict, phase, and the result only after COMPLETED |
| Execution.Matrix.Resume | src/claim_plane/validation.py:1703-1763 | A resume is refused for an unresumable phase; otherwise its stores are those of the acceptance, never of the agent |
| Execution.Matrix.RunCell | src/claim_plane/validation.py:1766-2051 | A run of a cell: refused, resumed, or prepared and handed to the agent, store by store |
| Execution.Matrix.RunNextCell | src/claim_plane/validation.py:1077-1086 | A run without an id is a run of the first cell without a result, and refused when there is none |
| Execution.Matrix.CollectAgent | src/claim_plane/validation.py:1909-2051 | What is stored after the agent ends: interrupted, lost, contaminated with its result, or pending acceptance |
| Execution.MoveIsSound | src/claim_plane/validation.py:1668-1700 | A call cut short at any store keeps every result sound, records at most one cell, never one more pending, and one less exactly if it recorded its cell |
| Execution.RunIsSound | src/claim_plane/validation.py:1610-1763 | In every sequence of runs and resumes, of the next cell or by id, with crashes anywhere and recorded cells left alone, a result exists only for a COMPLETED cell judged PASS, TEST_FAILED or CONTAMINATED, and the pending count never rises |
| Execution.AgentRunsOnce | src/claim_plane/validation.py:1703-1763 | In every sequence of runs and resumes, dying anywhere but in the windows of this cell: once its work is recoverable, the agent is not started on it again |
| Execution.RecoverableMeans | src/claim_plane/validation.py:83-88 | A pending cell is recoverable if and only if no run of it starts the agent again; otherwise every resume is refused |
| Execution.WorkIsLostExactlyInWindow | src/claim_plane/validation.py:1929-2034 | Every call on every pending cell loses finished work if and only if its number of stores lies in a window: after the agent's end and before ACCEPTANCE_PENDING, or on COMPLETED before the result |
| Execution.FinishedAgentRunsAgain | src/claim_plane/validation.py:1929-2034 | A call that dies in the first window: the candidate is there, no resume finds it, and the next run starts the agent a second time |
| Execution.RerunOfRecordedCell | src/claim_plane/validation.py:1766-2051 | A run by id of a recorded cell keeps every stored state sound if and only if it leaves the cell alone: its workspace is refused, or kept and not used |
| Execution.NextCellCanFinish | src/claim_plane/validation.py:1077-1086 | From every sound state one run or resume can record the next pending cell |
| Pump.Consume | src/claim_plane/runtime_progress.py:148-197 | The consumer loop computes the specified outcome of its turns, with timeout, interrupt and end flags |
| Pump.CapturedIsPrefix | src/claim_plane/runtime_progress.py:128-197 | In every interleaving, at every moment, each captured stream is a prefix of what was written, and the summary is the fold of captured stdout alone |
| Pump.DrainedIsComplete | src/claim_plane/runtime_progress.py:128-197 | When the pump ends by itself, each captured stream is whole if and only if its reader did not fail before the last line; the summary of a whole stdout does not depend on the interleaving |
| Pump.ShortReaderFailed | src/claim_plane/runtime_progress.py:130-135 | A reader has ended short of its stream if and only if it failed early |
| Pump.FailureIsSilent | src/claim_plane/runtime_progress.py:130-135 | A run of the pump that drains with nothing captured of a stream that was written |
| Pump.ConsumerOfRun | src/claim_plane/runtime_progress.py:148-197 | The consumer of every interleaved run is the sequential consumer over the turns it took |
| Policy.LevelIsStrongestMatch | src/claim_plane/policy.py:455-484 | A path has the level of its strongest matching rule, and the default only when none matches |
| Policy.BuiltinIsFloor | src/claim_plane/policy.py:364-373 | No project rule takes a path below a built-in rule that matches it |
| Policy.FinalActionIsStrongest | src/claim_plane/policy.py:486-503 | Without the human gate the final action is the strongest of all paths |
| Policy.ClearedExactlyWhen | src/claim_plane/policy.py:486-503 | The change clears never under preset `critical`, always under `observe`, and otherwise if and only if no changed path is of high or critical risk |
| Paths.CanonicalRepositoryPath | src/claim_plane/determinism.py:44-59 | Accepted are exactly the relative paths whose walk never leaves the project, does not end at its root and reads as no drive; the result is the place the walk leads to |
| Paths.CanonicalIsDenoted | src/claim_plane/determinism.py:47-59 | The code's tests on the normalised text decide the same as the walk over the segments |
| Paths.CanonicalShape | src/claim_plane/determinism.py:50-59 | A canonical path is proper names between single slashes: no empty, `.` or `..` segment, no backslash, no drive |
| Paths.CanonicalTwice | src/claim_plane/determinism.py:44-59 | A canonical path is canonical again if and only if it has no space at either end |
| Paths.SpaceIsLeft | src/claim_plane/determinism.py:47-50 | A concrete path whose canonical form is not canonical |
| Paths.BelowIsPrefix | src/claim_plane/determinism.py:174-175 | Comparing texts finds exactly the paths at or below a directory, segment by segment |
| Determinism.TreeSelectorMatches | src/claim_plane/determinism.py:171-176 | A selector `dir/**` covers exactly the paths whose segments start with those of `dir` |
| Determinism.CoveredMeans | src/claim_plane/determinism.py:171-176 | A path is covered if and only if some selector matches and all before it are well-formed paths |
| Determinism.CompletionFindings | src/claim_plane/determinism.py:179-282 | The findings, in order, of the checks |
| Determinism.ScopeIsClean | src/claim_plane/determinism.py:239-265 | No scope finding if and only if every changed path is covered |
| Determinism.ChangedPathsAre | src/claim_plane/determinism.py:130-168 | A candidate's changed paths are the canonical paths of the changed files, no more and no less |
| Determinism.VerifyRecord | src/claim_plane/determinism.py:399-473 | A finding for exactly the digests that differ from the rebuilt record, and none if and only if all four agree |
| Determinism.SameRecord | src/claim_plane/determinism.py:320-396 | Runs that agree on all that a record binds get one record and one digest |
| Determinism.InputsFixTheRecord | src/claim_plane/determinism.py:320-396 | Runs with the same inputs, outcome and error code get one reason, one list of findings, one record and one verdict digest, whatever their ids, times, roots, runtime counters and branches, and the order, repetition and spelling of changed files |
| Determinism.SameDigestSameRecord | src/claim_plane/determinism.py:320-396 | Without collisions among what two runs digest, equal record digests mean equal records |
| Determinism.VerifiesIffSameSealed | src/claim_plane/determinism.py:399-473 | A stored run that carries another run's record verifies if and only if the two agree on everything sealed |
| ControlledRun.FinishRun | src/claim_plane/controlled_run.py:1692-1730 | Exactly when a run ends as each of the six outcomes; VERIFIED if and only if it is delivered, with no findings and no error |
| ControlledRun.ReasonTellsTheOutcome | src/claim_plane/determinism.py:285-317 | The sealed reason of a finished run tells verified, cancelled, timed-out and failed runs apart from all others, whatever the acceptance classification says |
| ControlledRun.EvidenceIs | src/claim_plane/determinism.py:179-282 | No findings for a verified run if and only if task, base and change digests are well-formed, the base is bound, every changed path is covered, acceptance passed and the lifecycle is valid |
| ControlledRun.DeliveredUnderPolicy | src/claim_plane/controlled_run.py:1692-1698 | VERIFIED needs return code 0, evidence, no human gate and, unless only observing, no path of high or critical risk |
| ControlledRun.GateOnlyDowngrades | src/claim_plane/controlled_run.py:1391-1464 | The gate changes an outcome only from VERIFIED to REVIEW_REQUIRED |
| ControlledRun.GateIsIdempotent | src/claim_plane/controlled_run.py:1391-1464 | Outcome, error and record pass the gate a second time unchanged |
| ControlledRun.DowngradeKeepsFindings | src/claim_plane/controlled_run.py:1430-1464 | The rebuilt record keeps the findings if and only if a verified outcome had a verified completion |
| ControlledRun.StoreRun | src/claim_plane/controlled_run.py:1713-1769 | Every finished run carries the record of its own inputs, outcome and error, and is VERIFIED if and only if it was delivered |
| StoredRun.RereadIsTheRun | src/claim_plane/controlled_run.py:203-239 | Everything the verification needs comes back from the keys it was stored under, and nothing else is read |
| StoredRun.StoreAndVerify | src/claim_plane/determinism.py:399-473 | Every finished run, stored under its keys and read again, verifies without a finding |
| AddedLines.ReadAddedLines | src/claim_plane/acceptance_witness.py:131-152 | The loop computes the specified set from the lines of the diff |
| AddedLines.HeaderRoundTrip | src/claim_plane/acceptance_witness.py:134-142 | Every printed hunk header reads back with its new start |
| AddedLines.ExactIffReadable | src/claim_plane/acceptance_witness.py:131-152 | Over any number of hunks, the recorded numbers are the true ones if and only if every hunk is readable |
| DiffText.SplitAtNewline | src/claim_plane/acceptance_witness.py:135-135 | `splitlines` of a text is the pieces of its first line followed by `splitlines` of the rest |
| DiffText.AddedLinesExactly | src/claim_plane/acceptance_witness.py:131-152 | For the printed diff of one file, whatever line boundaries its lines hold, as long as no piece after a cut reads as an added line or a header: the numbers are exact if and only if every hunk is readable as it is cut |
| DiffText.WholeHunks | src/claim_plane/acceptance_witness.py:135-135 | Without line boundaries inside its lines a diff is read as it is printed, so that the condition is that of the hunks themselves |
| DiffText.FormFeedShiftsLines | src/claim_plane/acceptance_witness.py:135-151 | On a whole diff text: a form feed in an added line makes the reader report line 3 in the place of line 2 |
| DiffText.RightByLuck | src/claim_plane/acceptance_witness.py:135-151 | A whole diff text outside that class on which the reader is right though its hunk is not readable |
| AddedLines.RemovedDashesAreMiscounted | src/claim_plane/acceptance_witness.py:143-151 | A concrete diff whose added line gets a wrong number |
| Witness.BuildSpec | src/claim_plane/acceptance_witness.py:180-226 | The targets are exactly the new tests and those that span a reported line; witnessing is required if and only if there is a target or an unreadable file |
| Witness.TargetsAreTruth | src/claim_plane/acceptance_witness.py:131-208 | With readable diffs the targets are exactly the new tests and those that span a line that was added in truth |
| Witness.CountTarget | src/claim_plane/acceptance_witness.py:536-578 | The counters of one target, over its matching nodes |
| Witness.CountersDecide | src/claim_plane/acceptance_witness.py:536-596 | The verdict from the totals is the verdict over all targets and nodes, and the states add up to at most what was collected |
| Witness.Assess | src/claim_plane/acceptance_witness.py:433-596 | VERIFIED if and only if every target has a collected node and all its nodes passed unskipped; FAILED if and only if some node failed unskipped |
| Witness.ClassifyRun | src/claim_plane/oss_pilot.py:1100-1219 | PASS if and only if the evaluator returned 0 and witnessing is not required or complete; incomplete witnessing is EVALUATOR_INCOMPLETE whatever the return code |
| Merge.Tree.MergePath | src/claim_plane/oss_pilot.py:889-921 | One path in place is its three-way merge, and no other path changes |
| Merge.Tree.MergeOfficialTests | src/claim_plane/oss_pilot.py:878-922 | On success every official path holds its merge and nothing else changed; a failure names the first conflicting path |
| Merge.MergeIsUnique | src/claim_plane/oss_pilot.py:878-922 | There is one such tree |
| Merge.UntouchedSidesGiveWay | src/claim_plane/oss_pilot.py:892-902 | The candidate stays where the official side did nothing, and the official content wins where the candidate did nothing |
| Merge.MergingTheBaseIsIdentity | src/claim_plane/oss_pilot.py:878-922 | Merging an official tree equal to the base changes nothing |
| Merge.UntouchedCandidateBecomesOfficial | src/claim_plane/oss_pilot.py:878-922 | An untouched candidate becomes the official tree |

## Left out

Stated weaker than the code:

- ProjectConfig.NormaliseIsStable: a section given as a list of pairs counts as an error, though Python's `dict` would accept it.
- InitLimits.InitIsIdempotentExactly: configurations whose other adapters have floats or irregular nested keys are not covered, nor keys of a state file beyond those the code writes; what Git, `str` and `repr` give is taken to hold no Unicode line boundary.
- Project.MigrationResumesExactly: the clock of the second call differs from the time in the state.
- ConfigReader.ReadPayload: only ASCII digits are read as an integer with leading zeros, where the code's `\d` takes every Unicode digit.
- Sweep.AggregateWorkerOverlap: intervals are valid, since the constructor refuses others, and the quotients are exact where the code rounds floats.
- Paths.CanonicalTwice: assumes that stripping composed text leaves it composed, as Unicode normalisation does.
- Pool.PeakIsBounded: the clock that stamps intervals never runs backwards.
- Dogfood.FreezeIgnoresOrder: repositories and tasks are given as their parsers leave them, stripped and lower-cased.
- Dogfood.SavedPlanLoads: the time of creation is a stripped text, as the code's own clock gives.
- Aggregate.AggregateResults: the refusal of a plan that belongs to another suite is left out.
- Aggregate.RecordedCellsArePermutation: the refusal of evaluations that try to set a bound field is left out.
- Execution.RunIsSound: a run by id of a recorded cell must leave it alone (`Execution.RerunOfRecordedCell`), and forced preparation is left out.
- Execution.WorkIsLostExactlyInWindow: an exception that leaves the run before ACCEPTANCE_PENDING is a death at that store.
- Pump.Consume: which stdout lines are JSON objects is folded into the observer, and heartbeats are left out.
- DiffText.AddedLinesExactly: is about the diff of one file, as the code asks git for one file at a time; digits are ASCII. Where a piece after a cut reads as an added line or a header nothing is claimed, since the reader may then be wrong or right (`DiffText.RightByLuck`).
- StoredRun.RereadIsTheRun: keys are symbols, the values under them are not written out as JSON, and a file without outcome, completion or action is not read.
- Witness.BuildSpec: definitions and their spans are given.
- Merge.Tree.MergeOfficialTests: file modes, links and directories are left out; the line merge is any partial function.
- ControlledRun.FinishRun: a completion's `verified` is a boolean; truthy values of other types are left out.

Not modelled:

- Floats in the configuration are kept as their literal; Python's limits on recursion depth and on very long integers, lone surrogates, and the UTF-8 and newline handling of files are left out.
- The Git exclude file, `doctor_project`, `reset_project` and `set_adapter_enabled` of src/claim_plane/project.py.
- `parse_pair_indexes`, and the subprocesses and thread executor behind the pool.
- Unicode normalisation and globbing: any function and any relation.
- Canonical JSON and SHA-256: a digest is a function of the digested mapping.
- Discovery of tasks, class and risk heuristics, contamination scanning, environments, prompts, and every Git, network and process call of src/claim_plane/validation.py and src/claim_plane/oss_pilot.py.
- Change and hunk summaries and the interactive console of src/claim_plane/controlled_run.py.
- src/claim_plane/evidence.py, the command line, rendering, benchmarks, and the admission, broker and scheduler described in the repository's own documentation: not part of this model.
