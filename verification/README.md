# Wuko's execution engine, modelled in Dafny

Wuko runs workflows: trees of steps with conditions, blocks, controls and cleanup. This project models
the engine that runs them and proves what it guarantees.

* **Concurrent groups.** `ConcurrentGraph` builds the dependency graph, `GroupValidation` decides which
  groups are accepted, `Scheduler` is a transition system over every interleaving of scheduler, branches
  and cancellation, `SchedulerProperties` holds the theorems about its runs, `SchedulerLoop` is the
  engine's loop and refines it, `RunState` and `ConcurrentGroup` add what branches read and commit, and
  `Checks` the replay of findings.
* **The step tree.** `StepTree` has the tree and its static counts. `Interpreter` defines what an
  execution publishes, records and sees, with the scopes of services that can end under it, given an
  oracle for everything the tree does not determine; `ServiceScopes` says which scopes can end.
  `GroupPlans` lists the orders in which the branches of a group can take effect, and `GroupOrders`
  proves them to be those of the scheduler's runs. `StepAccounting` and `RecordLoss` compare records
  with the static counts, `ReferenceScope`, `ScopeCoverage`, `ScopeGap` and `BranchValidation` what a
  run can see with what the reference validator has in scope, and `EngineRun` is the engine's own form,
  loops over mutable state, with both results about whole runs. `StepLaws` says what each kind of step
  makes of the executions inside it: when it succeeds, which error remains, what it publishes and what
  goes on after it; `ScopeSupply` shows that the validator's scopes are no wider than they must be.
  `SmoothRun` builds the executions the
  converse directions need; `LossExample` has the smallest of them. `RunStatistics` keeps the counters.
* **Lifecycles.** `CleanupScopes` and `AttemptLoop` (managed resources and attempts), `DeferredCleanup`
  (defer groups and `finally`), `ErrorTrees` and `Background` (services and the errors they leave).
* **Sequential algorithms.** `FanoutExpansion`, `MatrixExpansion`, `EditorCommand`, `EnvironmentOverlay`
  with `PathMatch`, and `StderrTail`. `Collections` holds shared facts about sequences.

`dafny verify dfyconfig.toml` checks the whole project.

## Findings

Two properties one would expect do not hold in general. The code is modelled as it is, and the exact
condition is proved.

* *Step accounting.* A service started with exit-on-end cancels its scope when it exits
  (`engine/background.go:72-112`), and the scope, an executor block's (`engine/executor.go:98-105`) or
  the run's own (`engine/engine.go:331-338`), then clears the cancellation of its body. So a run can
  succeed although steps after the service left no record. A run that a step calls, as `run_workflow` and
  inline callbacks do, is a root run of its own whose scope is derived from its caller's
  (`engine/workflow_invocation.go:196-199`, `engine/engine.go:241-250`), so it inherits the end of that
  scope as the cause and clears it as well, whether it has services or not.
  `LossExample.ServiceBeforeWork` is the smallest block that loses a record, a service and one more step;
  in the other order nothing is ever lost unless the run is called (`LossExample.WorkBeforeService`).
  `LossExample.CalledBetween` is a called run of two plain steps that loses one.
  `RecordLoss.AlwaysAccountedIff` is the exact condition for both kinds of run. One that no step calls has
  all its records in all successful executions exactly when no scope, the run's or that of an executor
  block among its recorded steps or cleanup, lets a service-starting step come before recorded work: later
  in the sequence, or in a group in any order its branches can take. One called in a scope that a service
  may end, exactly when its main steps have no recorded work and its final steps no such block. A failure
  of a branch is dropped with it, because a group whose context is over reports that first
  (`engine/concurrent.go:334-337`).
* *Reference validation.* Cleanup that an attempt carries is collected and run like any other
  (`engine/defer.go:69-76`), but the validator's `validateAttempt` hands no cleanup on
  (`engine/reference_validation.go:644-678`), so those steps are never validated and their ids are
  missing from the scope of cleanup that runs after them. `ScopeGap.SuppliedIdRejected` is a workflow in
  which an id that a run supplies is missing; `AlwaysCoveredIff` shows that the validator covers all
  runs exactly when no defer scope collects cleanup of an attempt.

A third is a condition on use: waiting for background jobs joins all of them only if the scope had stopped
accepting services by the time the wait returned (`Background.WaitJoinsAllIff`); the engine always seals
first (`engine/executor.go:98-102`).

## Model

| member | source | states |
|---|---|---|
| `ConcurrentGraph.NewGraph` | engine/concurrent.go:182-237 | the adjacency lists are exactly the resolved `needs` and `after` declarations with their transposes, and `ancestors` is exactly the transitive closure of `needs`, without repetitions and, without cycles, in topological order |
| `ConcurrentGraph.Visit` | engine/concurrent.go:217-228 | one call of the depth-first search lists exactly the newly reached children, each after everything it needs |
| `ConcurrentGraph.Ancestors` | engine/concurrent.go:217-235 | the post-order list of a child holds exactly what it transitively needs, once each |
| `ConcurrentGraph.TopologicalClosure` | engine/concurrent.go:217-235 | on an acyclic graph every ancestor stands after all of its own ancestors |
| `ConcurrentGraph.IndexHolds` | engine/concurrent.go:196-216 | a list of names resolves to the positions of its known ones, one for each and in order |
| `ConcurrentGraph.AcyclicIff` | engine/concurrent.go:182-237 | a graph has a numbering that decreases along its edges exactly when its entries are in range and no child depends on itself |
| `ConcurrentGraph.AddStep` | engine/concurrent.go:196-216 | one declaration adds its edges and their reverses and nothing else |
| `ConcurrentGraph.IndexById` | engine/concurrent.go:182-188 | an id resolves to the last child that declares it, anonymous children to nothing |
| `GroupValidation.ValidateNeeds` | workflow/types.go:774-855 | a group is accepted exactly when every edge is sound and the union of `needs` and `after` has no cycle; otherwise the fault reported is the first there is |
| `GroupValidation.VisitedCount` | workflow/types.go:827-847 | counting down in-degrees visits every child exactly when the graph has a ranking, so is acyclic |
| `GroupValidation.Release` | workflow/types.go:838-843 | releasing a visited child keeps every in-degree equal to the number of unvisited dependencies and the queue equal to the children that wait for nothing |
| `GroupValidation.AcceptedGraphIsAcyclic` | workflow/types.go:774-855 | the graph the engine builds from an accepted group has no cycle of `needs` and `after` |
| `GroupValidation.ValidateGroup` | workflow/types.go:761-772 | the limits and edges an accepted group satisfies, and which of them a fault names |
| `Scheduler.ReachableInv` | engine/concurrent.go:100-180 | every reachable state of every interleaving satisfies the scheduler invariant: coherent tasks, admission in order, exact skips, unstarted branches only after cancellation, current read states, exact stop flag, bounded running count |
| `Scheduler.StepKeepsInv` | engine/concurrent.go:100-180 | each event (cancellation, deadline, begin, finish, admit, receive) keeps that invariant |
| `SchedulerProperties.AdmissionSafety` | engine/concurrent.go:100-180 | a running or started child has everything it transitively needs started and finished without error and everything in its `after` over; running never exceeds the limit |
| `SchedulerProperties.AtMostOnce` | engine/concurrent.go:100-180 | no child is admitted, begun or received twice; a skipped one never is |
| `SchedulerProperties.SkipExactness` | engine/concurrent.go:157-178 | the skipped children are exactly those that transitively need one that finished with an error, and none of them was ever admitted |
| `SchedulerProperties.NothingRanBehindFailure` | engine/concurrent.go:157-169 | whatever transitively needs a failed child never started |
| `SchedulerProperties.BranchReadsItsAncestors` | engine/concurrent.go:239-254 | the state a branch starts from is the snapshot with the outcomes of its ancestors applied, all of them settled |
| `SchedulerProperties.StartsOnlyUncancelled` | engine/concurrent.go:279-282 | a branch that begins only after the run was cancelled (by its parent, its deadline, or a failure where one is enough) never executes and ends with the empty outcome; one that started began before, and its outcome is the one it finished with |
| `SchedulerProperties.AdmitsOnlyUncancelled` | engine/concurrent.go:131-152 | once the run is cancelled no further child is admitted |
| `SchedulerProperties.RunsAreBounded` | engine/concurrent.go:100-180 | every interleaving, on any graph, has at most four events a child and two cancellations |
| `SchedulerProperties.StuckHasJoined` | engine/concurrent.go:166-179 | when nothing more can happen, every started branch has been received |
| `SchedulerProperties.Progress` | engine/concurrent.go:102-179 | acyclic, limit at least one, not cancelled: a state in which nothing can happen has every child finished or skipped |
| `SchedulerProperties.CleanMeansAllRan` | engine/concurrent.go:325-366 | a group that ends without an error has run every child to success |
| `SchedulerProperties.SameFate` | engine/concurrent.go:239-254 | two complete uncancelled runs with the same branch behaviour skip and finish the same children with the same outcomes |
| `SchedulerProperties.ScheduleIndependence` | engine/concurrent.go:239-395 | two runs with the same branch behaviour in which every child was skipped or ran agree in every outcome and in what they commit, whatever the interleaving and whatever is cancelled after the last branch began |
| `SchedulerProperties.CleanRunsAgree` | engine/concurrent.go:325-366 | two finished runs that report no error agree in the same way, even if the deadline of one fired after its last branch had finished |
| `GroupOrders.PlansAreRuns` | engine/concurrent.go:100-180 | branches can take effect in some order, each with success or not, exactly if some uninterrupted run of the scheduler receives them in that order with these fates (room for one branch or for all) |
| `GroupOrders.RunIsPlan` | engine/concurrent.go:130-179 | under any limit, the branches a run receives take effect in a way the interpreter allows, with the fates they had |
| `GroupOrders.GroupIsScheduled` | engine/concurrent.go:100-180 | a group as the interpreter executes it is a run of the scheduler: the same branches are over, failed and left behind a failure |
| `SchedulerLoop.RunConcurrentGraph` | engine/concurrent.go:100-180 | the loop with its counters and ready queue is a run of the transition system that ends only in a state where nothing more can happen; nothing that needs a failed child was started, and whatever started did so before anything cancelled the run |
| `SchedulerLoop.SkipDescendants` | engine/concurrent.go:258-277 | the breadth-first walk skips exactly the pending children that reach the failed one through pending children, once each |
| `SchedulerLoop.Complete` | engine/concurrent.go:157-178 | booking a completion keeps the counters equal to the unresolved edges and takes exactly the step of the transition system |
| `SchedulerLoop.AdmitReady` | engine/concurrent.go:131-152 | admission takes the ready children in ascending order up to the limit, and leaves none that could be admitted |
| `SchedulerLoop.Resolve` | engine/concurrent.go:111-121 | resolving an edge list decrements exactly the waiting counters and queues the children that reach zero, once |
| `SchedulerLoop.LoopExitIsStuck` | engine/concurrent.go:130-155 | the loop condition fails only where no event but an outside cancellation is left |
| `ConcurrentGroup.RunConcurrent` | engine/concurrent.go:40-98 | the group either commits a clean run with a single writer for each variable, or leaves the state exactly as it was and says why; an accepted group that commits ran every branch |
| `ConcurrentGroup.ExecutionError` | engine/concurrent.go:334-366 | which of parent cancellation, group timeout and branch failures is reported, of which branches, in declaration order, and when none is |
| `ConcurrentGroup.JoinedErrors` | engine/concurrent.go:342-366 | the errors joined are those of all failed branches; of a group that fails fast, those of the failed branches that do not report cancellation, or of all if every failed one does |
| `RunState.ConcurrentReadState` | engine/concurrent.go:239-254 | the read state of a branch is the fold of its ancestors' outcomes |
| `RunState.AbsorbAllDependsOn` | engine/concurrent.go:239-254 | that fold depends only on the outcomes of the ancestors |
| `RunState.MostDownstreamWriterWins` | engine/concurrent.go:239-254 | of the ancestors that write a variable, the value is that of one no other writer depends on |
| `RunState.LastWriterSupplies` | engine/concurrent.go:239-254 | the last writer in the ancestor list supplies the value |
| `RunState.ReadOutput` | engine/concurrent.go:239-254 | a branch reads, of each step an ancestor declares and ran, the outputs that ancestor left, and of any other step what the snapshot holds |
| `RunState.ReadFindings` | engine/concurrent.go:239-254 | it reads the findings of its ancestors replayed after those of the snapshot, and starts with no recorded writes |
| `RunState.FindConflict` | engine/concurrent.go:368-380 | a conflict is found exactly when two branches write one variable |
| `RunState.CommitBranches` | engine/concurrent.go:368-395 | the commit is all or nothing: two writers leave the state untouched, otherwise every published branch is applied in declaration order |
| `RunState.CommittedVariable` | engine/concurrent.go:368-395 | after a commit a variable holds its one writer's value or what it held before |
| `RunState.CommittedSteps` | engine/concurrent.go:368-395 | after a commit exactly the ids of published branches were added |
| `RunState.CommittedOutput` | engine/concurrent.go:368-395 | after a commit each step a published branch declares and ran holds the outputs that branch left, and any other step what it held |
| `RunState.CommittedFindings` | engine/concurrent.go:368-395 | a commit replays the findings of all published branches in declaration order, into both lists |
| `RunState.CommittedWrites` | engine/concurrent.go:368-395 | where writes are recorded, a commit records exactly the variables that published branches wrote |
| `RunState.PrivateCommitIsDirect` | engine/engine.go:907-919 | committing a step in a private copy and absorbing the copy leaves what committing it directly leaves |
| `RunState.StepCommittedHolds` | engine/engine.go:907-919 | a committed step supplies its outputs and variables over what was there, and its findings |
| `RunState.State.CommitStepResult` | engine/engine.go:907-919 | a finished step publishes findings, outputs and variables and records the writes |
| `RunState.State.Clone` | engine/concurrent.go:404-411 | a private copy shares values and starts its recorded writes afresh |
| `Checks.UpsertCheck` | engine/check.go:23-29 | a finding takes the place of the one with its id, or goes to the end |
| `Checks.ReplayEqualsDirect` | engine/check.go:15-29 | folding a child's recorded writes into the parent gives the list that committing the child's findings directly gives |
| `Checks.UpsertAllKeepsOnePerId` | engine/check.go:15-29 | committing keeps one finding per id |
| `Checks.RewriteIsOneMoreWrite` | engine/check.go:15-29 | replaying recorded writes after one more finding equals writing that finding after the replay |
| `StepTree.TotalCountsRecords` | engine/stats.go:11-37 | leaves plus nested cleanup never exceed the records of skipping, and equal them exactly when no executor block with deferred cleanup sits in another one or in a group |
| `StepTree.RecordsBeyondLeaves` | engine/engine.go:652-690 | skipping leaves at least one record a leaf, and exactly that when no executor block defers cleanup |
| `StepTree.DeferRecordsBeyondLeaves` | engine/defer.go:92-101 | the same for the deferred cleanup of a scope against its step count |
| `StepTree.SkipDefersAreReversedGroups` | engine/defer.go:59-78 | walking a scope backwards visits the collected groups in reverse declaration order |
| `StepLaws.SkippingSkips` | engine/engine.go:652-690 | skipping records every step, and every step of deferred cleanup, as skipped |
| `StepLaws.RecordsAreSelected` | engine/engine.go:652-690 | where no executor block defers cleanup, the ids recorded for a sequence are those it publishes to its surroundings, but for returns |
| `StepAccounting.SequenceRecords` | engine/engine.go:467-622 | a sequence never records more than skipping it would; without error, cut short by a return or not, it records exactly as much if no context ended, or if no service that ends the scope can be started before recorded work in it, even when one then does end it, unless it is in a called run whose caller's scope was ended |
| `StepAccounting.ScopeRecords` | engine/executor.go:56-112 | the same for an executor block with its services and its cleanup |
| `StepAccounting.CountGroup` | engine/concurrent.go:40-180 | the same for a concurrent group, over every order of its branches, with branches failing, skipped or cut off |
| `StepAccounting.ArmedIsSettled` | engine/concurrent.go:100-180 | when a branch starts a service that can end the scope and no order of branches loses work, all other work of the group is recorded or will be skipped |
| `StepAccounting.WorkflowRecords` | engine/engine.go:325-352 | the same for a whole run, called by a step or not, with the scope of its own services, its deferred cleanup and its final steps |
| `StepAccounting.AnnouncedTotal` | engine/defer.go:103-114 | such a run records at least its announced total, and exactly that when no executor block hides cleanup from the total |
| `RecordLoss.AlwaysAccountedIff` | engine/executor.go:98-111 | every successful run leaves the records of all its steps exactly when, neither in the run's own scope nor in that of a recorded executor block, a step that starts a service with exit-on-end may come before recorded work; if a step may call the run in a scope that a service can end, exactly when its main steps have no recorded work and its final steps no block that loses some |
| `RecordLoss.WorkflowLoses` | engine/engine.go:325-339 | where a service may start before recorded work, some run of the workflow succeeds with fewer records |
| `RecordLoss.CalledRunLoses` | engine/engine.go:325-339 | a called run with recorded main steps can succeed without any of their records |
| `RecordLoss.NothingToCut` | engine/engine.go:325-352 | without such steps and without a lossy block in the final ones, a called run that succeeds has all its records, whatever ends |
| `LossExample.ServiceBeforeWork` | engine/executor.go:98-111 | a block of a service and one more step whose run succeeds with the service's record alone |
| `LossExample.WorkBeforeService` | engine/executor.go:98-111 | the same two steps in the other order lose no record in any run that no step calls, and can lose one in a called run |
| `LossExample.CalledBetween` | engine/workflow_invocation.go:196-199 | a run of two steps without any service, called in a scope that ends between them, succeeds with the record of the first alone; not called, it always has both |
| `ServiceScopes.SequenceKeeps` | engine/background.go:72-112 | a sequence can end only contexts in which a service was started that may end them, or the caller's, and starts services only in its innermost scope |
| `StepLaws.DoesNotRun` | engine/engine.go:716-856 | a step reached in a context that is over leaves no record, one that fails before it runs a failed one; neither changes anything else |
| `StepLaws.KeeperOutcome` | engine/engine.go:716-856 | a leaf or control leaves one record that tells whether it ran and succeeded, publishes its id exactly then or when its outcome is replayed, and keeps a return inside to itself |
| `StepLaws.LeafOutcome` | engine/engine.go:716-856 | what a leaf publishes, registers and starts |
| `StepLaws.FailureEndsSequence` | engine/engine.go:467-622 | a step that fails ends its sequence: nothing after it runs or leaves a record |
| `StepLaws.ReturnEndsSequence` | engine/engine.go:467-622 | a return that fires, at any depth of blocks, ends the sequence without error; what follows is not seen and is recorded as skipped |
| `StepLaws.OthersGoOn` | engine/engine.go:467-622 | after any other step that succeeds the sequence goes on |
| `StepLaws.OnlyReturnsEnd` | engine/engine.go:467-622 | a sequence ends early without error only by a return that fires, in it or in a block of it |
| `StepLaws.BlockIsBody` | engine/engine.go:467-622 | a conditional block whose condition does not hold records its steps as skipped and runs nothing of them |
| `StepLaws.BlockSucceeds` | engine/executor.go:56-112 | an executor or worktree block succeeds exactly if its body did or was cut off by a service, and its services, cleanup and leaving did; cleanup runs in any case, with the flag and the defer scope of the surroundings restored |
| `StepLaws.BlockCarries` | engine/executor.go:56-112 | its error carries what went wrong in each of them, but for a cancellation a service brought about, and nothing else |
| `StepLaws.EachSucceeds` | engine/engine.go:419-439 | cleanup steps succeed exactly if every one does, each run after all before it whatever became of them |
| `StepLaws.DeferredRuns` | engine/defer.go:116-138 | the cleanup a step defers runs exactly if it was registered and is recorded as skipped otherwise |
| `StepLaws.FanoutSucceeds` | control/control.go:341-362 | a fan-out succeeds, is recorded so and publishes its id exactly if every iteration succeeds, it has no error of its own and no context around it is over; every iteration runs on a private copy |
| `StepLaws.FanoutCarries` | control/control.go:341-362 | the error is the cancellation around it, or its own, or those of all its iterations, of which a fail-fast one drops cancellations behind a failure |
| `StepLaws.AttemptSucceeds` | engine/attempt.go:172-349 | an attempt succeeds exactly if its last pass does, however earlier ones ended |
| `StepLaws.AttemptCarries` | engine/attempt.go:172-349 | its error is that of its last pass alone, else its own, unless a context around it is over |
| `StepLaws.PassIsJudged` | engine/attempt.go:253-318 | `until` sees what a successful pass published, `when` the state outside a failed one |
| `StepLaws.OnceSucceeds` | engine/once.go:44-281 | a replayed outcome publishes the id without running the body; otherwise body and step succeed together |
| `StepLaws.RaceSucceeds` | engine/cancel_on.go:59-169 | what decides a race, with monitors and body on private copies |
| `StepLaws.OnceAndRaceCarry` | engine/cancel_on.go:59-169 | the error of a step that runs once is that of its body, else its own; of a race its own, unless a context around it is over |
| `StepLaws.PrivateLeaves` | engine/control.go:65-210 | private bodies register cleanup and start services in the scope around; a try keeps its registrations to itself |
| `StepLaws.TrySucceeds` | engine/try_catch.go:37-181 | a try succeeds exactly if its cleanup does and its body did, or failed in a way that is caught and was rescued without error by something that ran |
| `StepLaws.TryCarries` | engine/try_catch.go:37-181 | which of the errors of body, rescue and cleanup remain otherwise |
| `StepLaws.RescueStepByStep` | engine/try_catch.go:193-213 | rescue goes on past a failure and stops at a cancellation, recording the rest as skipped |
| `StepLaws.GroupSucceeds` | engine/concurrent.go:325-395 | a group succeeds exactly if every branch ran with success, it did not time out and no context around it is over; a failed one publishes nothing |
| `StepLaws.GroupPublishes` | engine/concurrent.go:382-395 | a group that succeeds publishes what its branches published of their own, and nothing else |
| `StepLaws.GroupRecordsInOrder` | engine/engine.go:564-569 | its records stand in declaration order: those of each branch that ran, skipped ones of each that a failure left behind |
| `StepLaws.GroupCarries` | engine/concurrent.go:334-366 | which errors a failed group reports |
| `StepLaws.BranchSees` | engine/concurrent.go:239-254 | a branch starts from the ids outside and those its transitive needs published, and no others |
| `StepLaws.RunSucceeds` | engine/engine.go:325-352 | a run succeeds exactly if its main steps did or were cut off by a service, and its services, deferred cleanup and final steps did; these run in any case |
| `StepLaws.RunCarries` | engine/engine.go:325-352 | its error carries what went wrong in each of them |
| `StepLaws.CleanupIsNotCancelled` | engine/try_catch.go:150-181 | nothing ends the contexts of cleanup, neither of a scope's nor of a try's |
| `StepLaws.ScopeOpens` | engine/executor.go:86-98 | a scope of services is over exactly if the one outside is until a service in it ends it, and then alone |
| `StepLaws.ContextEnds` | engine/executor.go:86-98 | a context ends at a level that can end and is not shielded, if nothing in it has ended yet; that level and all inside it are over then |
| `StepLaws.OuterEnds` | engine/executor.go:86-98 | when an outer level ends, what is inside it does, and stays over outside |
| `StepLaws.RootEnds` | engine/engine.go:246-256 | a run's own scope can end only by a service of its own, and with its caller's context, which counts as ended by a service exactly if the caller's was |
| `SmoothRun.SmoothSequence` | engine/engine.go:467-622 | a run in which nothing fails by itself gets through every sequence with all cleanup registered, unless a service it started ends the scope |
| `SmoothRun.SmoothTry` | engine/try_catch.go:37-181 | a try whose body fails at once is rescued and succeeds |
| `GroupPlans.AcyclicHasFullPlan` | engine/concurrent.go:100-180 | an acyclic group has an order in which every branch takes effect |
| `EngineRun.Run.ExecuteSequence` | engine/engine.go:467-622 | the loop, which stops at an error and records the rest as skipped after a return, follows the recursive definition; it never appends more records than there is work, and appends all of them if it returns no error and no service can end the scope before recorded work |
| `EngineRun.Run.ExecuteDefers` | engine/defer.go:116-138 | the loop over the collected cleanup, last first |
| `EngineRun.Run.ExecuteEach` | engine/engine.go:419-439 | cleanup steps run one by one; a failure stops none |
| `EngineRun.Run.RecordSkippedSteps` | engine/engine.go:652-690 | the recursion over skipped steps appends exactly the defined records |
| `EngineRun.Run.ExecuteRescue` | engine/try_catch.go:193-213 | rescue steps run until one is cancelled or the context is over |
| `EngineRun.Run.ExecuteIterations` | engine/control.go:65-210 | the loop over iterations, each on a private copy of which only registrations and services remain, collects their errors, all and those that report no cancellation |
| `EngineRun.Run.ExecutePasses` | engine/attempt.go:172-349 | each pass on a private copy, judged by `until` or `when` |
| `EngineRun.Run.ExecuteWorkflow` | engine/engine.go:325-352 | a run that succeeds, called by a step or not, appends a record for every step unless one of its scopes can lose work or the scope it was called in ended, and observes no id that the validator lacks for the place unless some cleanup is unvisited |
| `ScopeCoverage.WorkflowCovered` | engine/reference_validation.go:441-483 | in every run of a workflow whose defer scopes collect no cleanup of attempts, each step and each control expression sees only ids in the validator's scope for that place |
| `ScopeCoverage.SequenceCovered` | engine/reference_validation.go:548-560 | the same for a sequence, and the scope it leaves covers what it published |
| `ScopeCoverage.StepCovered` | engine/reference_validation.go:562-622 | the same for a step of any kind |
| `ScopeCoverage.GroupCovered` | engine/reference_validation.go:754-795 | the same for a group: a branch sees only what the branches it transitively needs declare |
| `ScopeCoverage.TryCovered` | engine/reference_validation.go:863-885 | the same for try, rescue and the cleanup of both |
| `ScopeCoverage.PassesCovered` | engine/reference_validation.go:644-678 | the same for every pass of an attempt and its `until` and `when` |
| `ScopeCoverage.IterationsCovered` | engine/reference_validation.go:797-846 | the same for every iteration of a fan-out and its `collect` |
| `ScopeCoverage.MonitorsCovered` | engine/reference_validation.go:887-914 | the same for the monitors of a race |
| `ScopeCoverage.ScopeCovered` | engine/reference_validation.go:968-1011 | the same for executor and worktree blocks with their cleanup |
| `ScopeCoverage.DefersCovered` | engine/reference_validation.go:1013-1033 | the same for deferred cleanup, last group first |
| `ScopeGap.AlwaysCoveredIff` | engine/reference_validation.go:644-678 | the validator's scopes cover every run exactly when no attempt hands cleanup of its own to a defer scope |
| `ScopeGap.WorkflowEscapes` | engine/defer.go:69-76 | otherwise some run executes cleanup steps that the validator has no scope for |
| `ScopeGap.SuppliedIdRejected` | engine/reference_validation.go:644-678 | a workflow in which a cleanup step could read an id that a run supplies and its scope in the validator lacks |
| `ScopeSupply.WorkflowSupplied` | engine/reference_validation.go:441-483 | in the run in which nothing fails, every place the validator visits outside rescue and `when` sees all the ids of its scope, but for those only returns and rescue steps declare: with coverage, the scopes are there exactly what that run supplies |
| `ScopeSupply.ExcusedScopes` | engine/reference_validation.go:863-885 | rescue is validated against what the body leaves, and so is `when`; the cleanup of a try against what rescue and its cleanup leave |
| `ReferenceScope.SequenceGrows` | engine/reference_validation.go:548-560 | scopes only grow along a sequence |
| `BranchValidation.ValidateConcurrent` | engine/reference_validation.go:754-781 | the ready-queue loop validates every branch of an acyclic group, each against the scope outside, all ids its ancestors publish and all variables they declare |
| `BranchValidation.BranchInput` | engine/reference_validation.go:768-772 | merging the ancestors' ids and the variables their validation left gives that scope |
| `BranchValidation.GatheredVarsAreNeeded` | engine/reference_validation.go:768-777 | the variables left by the ancestors are together those that everything transitively needed declares |
| `BranchValidation.Advance` | engine/reference_validation.go:778-784 | releasing dependents keeps the counters and the sorted queue exact |
| `CleanupScopes.CleanupScope.Register` | engine/progress.go:282-286 | a cleanup is appended |
| `CleanupScopes.CleanupScope.Adopt` | engine/progress.go:291-302 | everything pending moves to the target in order; without a target it is dropped |
| `CleanupScopes.CleanupScope.Run` | engine/progress.go:307-320 | everything pending is released, latest first, and every failure reported |
| `CleanupScopes.AdoptThenRun` | engine/progress.go:288-320 | a combined scope releases what it adopted first and its own after, each latest first |
| `AttemptLoop.ExecuteAttempt` | engine/attempt.go:172-349 | it stops at the first pass that ends it; failed passes stay within the budget; reported attempts equal recorded ones; passes are attempts - 1 + polls with `until` and attempts without; discarded passes release their own resources in turn and only the winning one hands its on |
| `AttemptLoop.ExecutePass` | engine/attempt.go:176-348 | the judgement of one pass in terms of what it met: each way it can end the attempt, exactly when, what is recorded, what is released and what adopted |
| `AttemptLoop.ContinuingRepeats` | engine/attempt.go:253-348 | every pass but the last succeeded short of readiness, or failed, is to be retried and did not spend the last of the budget; and where that holds of all passes another follows |
| `AttemptLoop.SettledConserves` | engine/attempt.go:184-193 | every resource created is pending in the parent or released, with the multiplicity it was created with |
| `AttemptLoop.RunBody` | engine/attempt.go:195-209 | a pass registers its resources in a scope of its own and works on a private state |
| `DeferredCleanup.DeferStack.Collect` | engine/defer.go:59-78 | groups are collected in declaration order, the last per owner addressable |
| `DeferredCleanup.DeferStack.Register` | engine/defer.go:80-90 | an owner that committed activates its last group, under its environment, and no other |
| `DeferredCleanup.CommittedGroupsRun` | engine/defer.go:59-138 | whatever committed on the stack of a scope, its cleanup runs exactly the steps of the groups whose owner committed, last declared first, each under the environment of its owner's last commit, and then the final steps |
| `DeferredCleanup.DeferStack.StepCount` | engine/defer.go:92-101 | the total over the collected groups |
| `DeferredCleanup.PendingLeaves` | engine/defer.go:92-101 | that total is the static count of the scope's cleanup |
| `DeferredCleanup.NothingReached` | engine/defer.go:116-138 | a scope none of whose owners committed runs no cleanup and records all of it as skipped, in the order of skipping |
| `DeferredCleanup.CleanupRun.ExecuteCleanupScope` | engine/engine.go:387-417 | whatever the main outcome, exactly the steps of the active groups, last first, and then the final steps run, once each; every one sees the status of the main outcome in `finally.status`; records are appended in that order, with those of the other groups skipped in their place; the previous binding and environment are back afterwards |
| `DeferredCleanup.CleanupRun.ExecuteDeferred` | engine/defer.go:116-138 | the same for the deferred groups, run and skipped ones in one order |
| `DeferredCleanup.CleanupRun.ExecuteCleanupSteps` | engine/engine.go:419-439 | every step runs, in order, and the errors returned are exactly theirs |
| `DeferredCleanup.SeenAt` | engine/engine.go:387-439 | cleanup step k sees in `finally.errors` exactly the main failures followed by those of the steps run before it |
| `DeferredCleanup.MainErrorsAre` | engine/engine.go:396-399 | cleanup sees a failure exactly if the main steps failed or something in them went wrong |
| `DeferredCleanup.RecordsAreFailures` | engine/engine.go:441-459 | there is a failure record exactly if something went wrong in a step, and each is that of an innermost failure |
| `DeferredCleanup.NewErrorsAre` | engine/engine.go:425-435 | a failed cleanup step adds the failures it recorded, or one of its own if it recorded none |
| `DeferredCleanup.CleanupRun.Note` | engine/engine.go:427-435 | a failed step adds its recorded failures, or one for itself |
| `ErrorTrees.CancellationOnlyByLeaves` | engine/cancel_on.go:245-265 | an error is cancellation only exactly when every leaf of its tree is |
| `ErrorTrees.CancellationHidesNoMark` | engine/cancel_on.go:240-265 | such an error carries none of the supervisor's sentinels |
| `ErrorTrees.IsByLeaves` | engine/cancel_on.go:240-265 | an error is a mark, a plain error or a deadline exactly if one of its leaves is, and a cancellation if a leaf is or reports one |
| `ErrorTrees.JoinBackgroundKeepsFailures` | engine/background.go:216-221 | joining keeps every failure of both sides and is cancellation only when both are |
| `ErrorTrees.JoinBackgroundCounts` | engine/background.go:216-221 | a failure is in the joined error exactly as often as in the two sides together |
| `ErrorTrees.JoinBackgroundAbstracts` | engine/background.go:212-221 | the flags the interpreter keeps of an error are exact under this join |
| `Background.ReachableInv` | engine/background.go:72-190 | what every interleaving keeps: errors only of returned jobs, signals only outside the accepting phase, and a gone fail-fast failure has cancelled the scope |
| `Background.RunForward` | engine/background.go:72-190 | phases only move forward, the first cause stays, jobs are never dropped or changed, and none is added once the scope stopped accepting |
| `Background.ExitEndsScope` | engine/background.go:100-112 | in every interleaving a service with exit-on-end that returned without error, was not cancelled and is gone has ended its scope, with the end mark unless something else stopped it |
| `Background.OnlyThoseCancel` | engine/background.go:100-112 | nothing but a stop, the failure of a fail-fast job, or the exit of such a service that was not cancelled before cancels a scope |
| `Background.ReportableAre` | engine/background.go:157-166 | waiting collects exactly the errors that are neither cancellation alone nor an abort |
| `Background.ResultByCause` | engine/background.go:168-186 | what each kind of cause adds to them |
| `Background.WaitJoinsAllIff` | engine/background.go:157-168 | the scope is joined with all jobs gone in every continuation exactly when it was sealed, stopped or cancelled by the time the wait returned |
| `Background.WaitReportsAll` | engine/background.go:157-186 | after such a wait every job is gone and every error that is neither cancellation nor an abort is in the result |
| `Background.CausePresentOnce` | engine/background.go:157-186 | in every interleaving in which the scope inherits no failure, a failure that cancelled it is the error of a job among those collected, so the report is those errors and the cause is not added again |
| `Background.CauseReported` | engine/background.go:168-181 | in every interleaving a failure that cancelled the scope is reported, and added to the collected errors only if the scope inherited it and no job reports it |
| `Background.InheritedFailureTwice` | engine/background.go:168-221 | a failure of a service of the outer scope that an inner scope inherits is in what the outer scope reports at least twice |
| `Background.WaitIsQuiet` | engine/background.go:157-186 | in every interleaving, waiting reports nothing exactly when no job has a real error and the scope was left alone or ended by its lifecycle |
| `Background.Supervisor.StartService` | engine/background.go:72-98 | a service starts exactly in an accepting, uncancelled scope |
| `Background.Supervisor.Seal` | engine/background.go:131-143 | sealing is its phase change followed by the cancellation of every job that is not kept alive |
| `Background.Supervisor.Stop` | engine/background.go:145-155 | stopping moves the phase on and cancels with the first cause |
| `Background.Supervisor.Wait` | engine/background.go:157-186 | the loop over the jobs computes the result of the transition system |
| `RunStatistics.RunStats.RecordStep` | engine/stats.go:71-89 | recording a step adds to each counter what the step contributes, and keeps it equal to its total over the listed steps plus what was rolled up |
| `RunStatistics.RunStats.Merge` | engine/stats.go:48-60 | merging equals recording the other run's steps |
| `RunStatistics.RunStats.RollupNestedMetrics` | engine/stats.go:39-46 | private steps add their costs and no outcomes |
| `RunStatistics.EveryStepCounted` | engine/stats.go:71-82 | every recorded step counts under exactly one outcome |
| `RunStatistics.StepTimeoutCount` | engine/stats.go:91-102 | timed-out attempts, or one for a timed-out step without any |
| `RunStatistics.RunStats.RecordAttempt` | engine/engine.go:590-602 | recording an attempt with its passes adds the step's share and the costs of the passes; of the timeouts the attempt lists and those its passes report only the larger number counts, so unrelated ones on the two sides are not added up |
| `FanoutExpansion.BatchContext` | control/control.go:60-98 | batches concatenate to the input, all but the last are full, their number is the ceiling, and exactly the three faults are rejected |
| `FanoutExpansion.ForeachContext` | control/control.go:106-131 | one iteration per item, in order, within the limit |
| `FanoutExpansion.NumberOfDigits` | control/control.go:174-205 | every number below the product is the number of its digits |
| `FanoutExpansion.DigitsOfNumber` | control/control.go:174-205 | every choice of one value per axis is the digits of its number |
| `FanoutExpansion.DigitAt` | control/control.go:133-203 | the digit of axis j is k divided by the product of the later axes, modulo the axis |
| `MatrixExpansion.MatrixContext` | control/control.go:139-206 | the expansion enumerates the combinations in mixed-radix order; it is rejected as too large exactly when the product exceeds the limit |
| `MatrixExpansion.Expander.Expand` | control/control.go:174-205 | the recursion over one shared binding appends every combination of the remaining axes and leaves the binding as it was |
| `MatrixExpansion.TableHolds` | control/control.go:174-205 | the recursion puts each combination at the position its number names |
| `MatrixExpansion.TableAt` | control/control.go:174-205 | entry k of the recursion binds what the digits of k pick |
| `MatrixExpansion.WithinLimit` | control/control.go:166-172 | dividing the limit first decides exactly whether the product exceeds it, and the running product never does |
| `MatrixExpansion.EveryCombinationOnce` | control/control.go:139-206 | every combination is bound by exactly one iteration |
| `MatrixExpansion.MixedRadix` | control/control.go:133-206 | iteration k binds axis j to value (k div product of the later lengths) mod its length |
| `EditorCommand.SplitEditorCommand` | cmd/editor.go:12-65 | the index loop computes the character-by-character meaning of the tokenizer |
| `EditorCommand.QuotedRoundTrip` | cmd/root.go:826-833 | splitting the joined quoted arguments gives the arguments back exactly when there is a non-empty first one |
| `EditorCommand.ReadsShellQuote` | cmd/root.go:826-833 | a quoted argument is read back as one word whatever follows it |
| `EditorCommand.ReadsDoubleQuoted` | cmd/editor.go:12-65 | text in double quotes, with double quotes and backslashes in it escaped, is part of one word whatever it contains |
| `EditorCommand.ReadsSingleQuoted` | cmd/editor.go:12-65 | text in single quotes is part of one word with nothing escaped in it |
| `EditorCommand.ReadsSpace` | cmd/editor.go:12-65 | outside quotes a separator ends the word before it and does nothing else |
| `EditorCommand.EndGivesArguments` | cmd/editor.go:12-65 | the end of the line ends the last word; the words are the arguments, if the first names a command |
| `EditorCommand.Separators` | cmd/editor.go:12-65 | which characters separate words: no quoting character and none that is written unquoted |
| `EditorCommand.BackslashTakes` | cmd/editor.go:12-65 | a backslash takes a backslash or double quote as it is, outside quotes also a single quote and a separator |
| `EditorCommand.OpenEscapeFails` | cmd/editor.go:12-65 | a backslash at the end of the line is an error, but in single quotes |
| `EditorCommand.OpenQuoteFails` | cmd/editor.go:12-65 | a quote that is not closed is an error |
| `EditorCommand.BlankFails` | cmd/editor.go:12-65 | a line that names no command is an error |
| `EditorCommand.BackslashKept` | cmd/editor.go:9-32 | a backslash before an ordinary character stays |
| `EnvironmentOverlay.RenderEnvironmentOverlay` | engine/environment.go:109-194 | the lazily rebuilt view gives the result of rebuilding it before every operation, whatever it holds at first |
| `EnvironmentOverlay.ApplySet` | engine/environment.go:125-161 | a `set` succeeds exactly when no entry aborts, with a result that does not depend on the order of its entries |
| `EnvironmentOverlay.SetHolds` | engine/environment.go:125-161 | after a `set` each variable it names holds what its declaration gives, is gone if that is nothing, or is empty while the value is not known; all others are as before |
| `EnvironmentOverlay.AbortsExactly` | engine/environment.go:125-161 | a `set` aborts exactly if some entry gives what is no text, or is unknown outside validation |
| `EnvironmentOverlay.RemoveMatching` | engine/environment.go:178-190 | the direct look-up for a pattern without special characters removes what the scan removes |
| `EnvironmentOverlay.ApplyUnset` | engine/environment.go:171-191 | an `unset` fails exactly on a malformed pattern that is not excused, and removes exactly the matched names |
| `EnvironmentOverlay.WithoutExactly` | engine/environment.go:171-191 | an `unset` keeps exactly the variables that none of its well-formed patterns matches |
| `EnvironmentOverlay.ValidPatterns` | engine/environment.go:178-184 | patterns are valid exactly if none is empty and each can be read to its end |
| `EnvironmentOverlay.RenderedAre` | engine/environment.go:200-239 | its patterns are rendered each and in order; outside validation one that does not render fails it |
| `EnvironmentOverlay.UnsetByExpression` | engine/environment.go:200-239 | an expression gives the patterns, and fails the operation if it gives no list of valid ones |
| `EnvironmentOverlay.SeesEarlierChanges` | engine/environment.go:109-194 | an operation works on what those before it left and evaluates in it |
| `PathMatch.LiteralMatches` | engine/environment.go:178-184 | a pattern without special characters matches exactly the name it spells |
| `PathMatch.StarBetween` | engine/environment.go:178-184 | a star matches any text there but a slash |
| `PathMatch.QuestionBetween` | engine/environment.go:178-184 | a question mark matches one character that is not a slash |
| `PathMatch.RangeMatches` | engine/environment.go:178-184 | a range matches the characters in it, a negated one those outside |
| `PathMatch.EscapeMatches` | engine/environment.go:178-184 | an escaped character matches itself alone |
| `PathMatch.MalformedPatterns` | engine/environment.go:178-184 | a backslash at the end and an open or empty class are malformed |
| `StderrTail.Tail.Write` | cmd/stderr_tail.go:27-40 | the buffer stays a suffix of everything written since the reset, at most 32 KiB and at least the smaller of 16 KiB and all of it |
| `StderrTail.Tail.Reset` | cmd/stderr_tail.go:42-46 | a reset starts afresh |
| `StderrTail.Tail.Lines` | cmd/stderr_tail.go:49-64 | the text is the last ten non-blank cleaned lines of that suffix, in order |
| `StderrTail.PiecesCut` | cmd/stderr_tail.go:54-58 | cutting at the last newline cuts the lines |
| `StderrTail.JoinedPieces` | cmd/stderr_tail.go:54-64 | joining lines is undone by cutting at newlines |

## Left out

Weaker than the source in these points:

- EngineRun.Run.ExecuteWorkflow: step indexes, progress events, timing, rendering, pending check failures, managed resources, environment overlays and bindings during a run are not part of the interpreter; conditions, outcomes, errors, the moments at which scopes end and the order of branches come from an oracle.
- EngineRun.Run.ExecuteSequence: a concurrent group is executed by a function given to the run and required to agree with the interpreter's definition, in which branches take effect one at a time; `GroupOrders` relates that to the scheduler. A repeated body is a number of passes chosen by the oracle (the pass loop with its policy is `AttemptLoop`), and the claim protocol of `once` is a private body or a replayed outcome.
- GroupOrders.PlansAreRuns: with room for more than one branch but not for all, every uninterrupted run is still a plan (`RunIsPlan`), but not every plan a run; step ids and fates are related, not the values branches read.
- RecordLoss.AlwaysAccountedIff: assumes that `needs` and `after` of every group are acyclic, which `GroupValidation` establishes for accepted workflows; a group has room for one branch or for all. Of a called run only what it inherits is modelled: its caller's scope may end, by a service or by a plain cancellation. A timeout, a cancel_on or a fail-fast group that interrupts the steps inside it shows as an error of those steps, not as a context of its own; the caller's own deadline is reported like a cancellation.
- ScopeSupply.WorkflowSupplied: says nothing of places in rescue steps and of `when`, which such a run does not reach; a rescue step's scope holds all ids of the body, also that of the step that failed.
- ScopeGap.AlwaysCoveredIff: the same acyclicity, for the main and the final steps. Cleanup that is never validated counts as uncovered; for the places that are validated there is the example of `SuppliedIdRejected`, but no exact condition.
- ScopeCoverage.WorkflowCovered: step ids only; variables, bindings, output schemas and template syntax are not modelled.
- BranchValidation.ValidateConcurrent: the validation inside a branch is left to `ReferenceScope`, and the variables it declares are a parameter; schemas of ids and variables are not modelled.
- AttemptLoop.ExecuteAttempt: endless polling is a finite list of passes after which the context is over, so each statement is about an arbitrary prefix; delays, backoff, timeouts and what a pass hands to the next one are not modelled beyond interrupting the loop.
- CleanupScopes.CleanupScope.Run: a cleanup is a resource number and whether its release fails; cleanups do not register others.
- DeferredCleanup.CleanupRun.ExecuteCleanupScope: an error record has no step type.
- ErrorTrees.CancellationOnlyByLeaves: errors are compared by structure, with numbers in place of identities; message text is not modelled.
- Background.ReachableInv: panics of services, event reporting and the context tree above the scope are not modelled; a cancellation from above is a stop with its reason.
- MatrixExpansion.MatrixContext: cancellation in the middle of an expansion and values that cannot be copied are not modelled.
- FanoutExpansion.BatchContext: the same, and items that are no list.
- EditorCommand.QuotedRoundTrip: text is a sequence of Unicode scalar values, so arguments with invalid UTF-8, which the tokenizer cannot give back, are not covered.
- EnvironmentOverlay.RenderEnvironmentOverlay: a failure names the operation but not the entry; expression and template evaluation are parameters.
- PathMatch.LiteralMatches: the documented meaning of patterns, not the library's matching algorithm.
- StderrTail.Tail.Lines: cleaning a line (escape sequences, carriage returns, invalid UTF-8, the length limit) is a parameter that maps an empty line to an empty line.
- RunState.State.CommitStepResult: values are opaque and copying them is the identity.
- RunState.State.Clone: the inputs, the environment and the bindings of a copy are not modelled.

Not modelled:

- Loops, whose second iteration sees ids declared later in the body, and background controls such as `observe`.
- Configuration parsing and structural validation other than that of group edges.
- Expression and template languages, step runners, sessions, worktree and file operations.
- The command line, terminal interfaces, reporters, plugins, hooks, the store and the marketplace.
- Wall-clock time; deadlines appear only as cancellation that may happen at any point.
