# Verified model of boring-agent

boring-agent keeps tasks, attempts, workers, workflows and native sessions in one SQLite
database.  Managers, workers, detached runners, callers and operators change it through
serialized transactions that interleave in any order.  This project states those
transactions, and proves what holds between and after any number of them.

## How the model is built

* `Types.dfy` holds the rows of every table and the documents commands carry, as one value `Db`.
* `StoreOps`, `WorkflowOps`, `ManagerOps` and `RunnerOps` specify each transaction as a function
  from database to database, with the branches, error answers and constants of the program.
* `StoreClass`, `WorkflowClass`, `ManagerClass` and `RunnerClass` are the program's own objects:
  tables as fields, loops where the program loops.  Each method is proved equal to its specification,
  so every theorem about the specification is a theorem about the method.  Methods without a loop, such as
  `Submit`, `Cancel`, `ClaimLaunch` or `StartJob`, are straight-line bridges to the specification and have no row below.
* `System` puts them together: a machine of one database, the snapshots that managers are
  validating outside any transaction, the memories of live runners, and history (attempts that
  were ever Unknown or ever launched, the largest response of each task).  A step is one
  transaction of any participant, or the loss of one; `Exec` runs any sequence of steps.
* `Invariant` states what holds in every reachable database and how databases of one run relate.
  `PairProofs` to `RunProofs` prove it step by step, and `RunGuarantees`, `BudgetGuarantees`,
  `PlanGuarantees`, `ScheduleGuarantees` and `CommandGuarantees` draw the promises from it.
* `Lifecycle`, `LifeInvariant`, the `Life...Proofs`, `LifeGuarantees` and `LifeClass` do the same for
  native sessions, jobs and runs, with warm-ups that are under way between transactions.
* `FateGuarantees`, `TickGuarantees`, `CallerGuarantees`, `ChildGuarantees`, `AcceptGuarantees`, `DeliveryGuarantees`,
  `ReportGuarantees` and `LifeOutcomes` state for each transaction exactly when it takes effect and what it then changes,
  field by field and without its specification, so that no branch, constant or refusal above stands for itself alone.
* `Graph` holds the depth-first check that plan validation and native registration share.

## Conventions

* Row identifiers come from one supply that never repeats, as random UUIDs do.  Rows that the
  program selects in insertion order are visited by ascending identifier.
* Texts that are only compared (labels, models, paths, keys, JSON content) are numbers.  Digests are
  compared by what they digest, which treats the hash as injective.
* One transaction reads the clock once; between transactions it never goes back.  Times are reals.
* Whether a runner process is alive, whether an artifact validates, whether a dependency payload can be
  built, and whether a planner's result can be read back are parameters of the steps, free in each of them.
* A workflow is identified by its planner task, and its plans are numbered by their position.
* While a runner waits for its provider, what other processes commit is an arbitrary function on the database at each
  moment it looks up.  Whether the answer comes within the duration it was given is the provider's part.
* A restart ends every warm-up in flight: `Recover` empties the warm-ups of the model, while the program's `recover`
  changes rows only.  `UncertainNeverReruns` rests on it for sessions, since a surviving warm-up could close one as `ready`.
* An interrupted transaction is one that did not happen; a crash between transactions is the loss of a
  manager, runner or warm-up, and retention may stop after any of its phases.

## Results that differ from what one would expect

* A session is not always marked `running` while a run uses it.  A warm-up claim that finds the session
  already prepared has no steps, and its closing transaction writes `ready` without looking at the
  state; when another process starts a job in between, the mark is overwritten.  `LateClosingUnmarks`
  is such a run, `FinishConsistentIff` gives the exact condition, and `MarksExact` shows that
  nothing else loses the mark.  Exclusive use does not depend on it (`ExclusiveUse`).
* A session may inherit a mode that bypasses permissions, but no new session may start with one.  When two jobs
  depend on the run of such a session, its success would need a branch, so neither the completion nor
  `ready_jobs` can go through while the mode stays: `BypassBlocksSuccess` is such a run, `CompletionRefusedIff` and
  `ReadyRefusedIff` give the exact conditions.
* The checks of a verdict against attempt, result path, checksum and specification at the commit
  never fail: rows that a verdict is about are final (`CommitRefinesAtomic`).  Only cancel intent can have arrived.
* The final sum check of a plan can fail only when every fresh child names its own ceiling (`ShareFits`).

## Model

| member | source | states |
|---|---|---|
| RunProofs.ExecKeeps | boring_agent/manager.py:36-108 | every sequence of steps of callers, managers, workers, runners and operators keeps the whole invariant, snapshots and runner memories included |
| RunGuarantees.ExecAdvances | boring_agent/store.py:402-426 | any two databases of one run are related by the progress relation: contracts fixed, cancel intent and terminal outcomes final, settled and terminal attempt rows frozen, attempt rows vanish only together and after their task finished |
| RunGuarantees.ReservationExact | boring_agent/manager.py:162-163 | in every reachable state an attempt is reserved iff it is unsettled iff it is the current attempt of a Scheduled or Running task |
| RunGuarantees.ReservationBounds | boring_agent/manager.py:209-216 | reservations never exceed `max_active`, a Pending task holds none, an open task exactly one |
| RunGuarantees.NoReplay | boring_agent/manager.py:80-85 | once an attempt of a task was ever Unknown, no later state of the run holds an attempt of that task created after it, whether it was resolved, cancelled or retired |
| RunGuarantees.LaunchLimit | boring_agent/store.py:93-101 | the attempts of a task that ever launched number at most `max_attempts`, and at most one without replay safety, however many non-starts occurred |
| RunGuarantees.IntentAbsorbs | boring_agent/manager.py:136-147 | over any continuation of any run cancel intent and terminal status are final and nothing new is attempted after them |
| RunGuarantees.SuccessInTime | boring_agent/manager.py:44-59 | every Succeeded task wants to run and owns a settled successful attempt that finished by the deadline and whose result it carries |
| RunGuarantees.WorkflowsEndure | boring_agent/store.py:343-347 | no continuation removes a workflow root, a child row, a planner or a child task, and a succeeded one keeps its whole row |
| RunGuarantees.UsageConserved | boring_agent/manager.py:164-170 | task usage is the sum over settled attempts; workflow usage and attempts are the totals over its distinct child tasks, within `max_attempts` |
| RunGuarantees.ExhaustedAdmitsNone | boring_agent/workflows.py:746-767 | once a workflow has used its tokens, every continuation keeps exactly the attempts its children had |
| RunGuarantees.OvershootBelowOneResponse | boring_agent/runner.py:52-56 | over all attempts of a task, known usage stays below its ceiling plus the largest single response |
| RunGuarantees.LedgerMonotone | boring_agent/store.py:517-539 | every accepted report raises the sequence, never lowers known usage, covers what it reports, and leaves a total that is null or equal to the known usage |
| RunProofs.ResponseFits | boring_agent/runner.py:52-56 | one permitted response keeps base plus counted tokens below the ceiling plus that response |
| CommitProofs.CommitRefinesAtomic | boring_agent/manager.py:127-160 | a commit of any verdict over a snapshot taken earlier equals one atomic settlement of the rows as they are at the commit, or nothing: no premise of the verdict can have gone stale |
| CommitProofs.SettlesOnce | boring_agent/manager.py:138-141 | after a commit that changed anything, every other commit for the same attempt changes nothing, at any later time and from any manager |
| CommitProofs.TickSnaps | boring_agent/manager.py:94-100 | each snapshot a tick hands out describes its rows, and a success that still wants to run finished in time |
| CommitProofs.CommitKeeps | boring_agent/manager.py:136-160 | the commit keeps the invariant and the progress relation |
| BudgetGuarantees.WorkflowTokens | boring_agent/workflows.py:503-542 | over every run: used tokens plus what open children may still use is at most `max_tokens` plus what children overshot their own ceilings |
| BudgetGuarantees.WithinWorkflowTokens | boring_agent/workflows.py:769-778 | without overshoot of a child the workflow never exceeds `max_tokens` |
| BudgetGuarantees.AcceptedPlanFits | boring_agent/workflows.py:503-542 | right after an accepted plan or replan used tokens plus all remaining allowances fit `max_tokens` without any overshoot allowance |
| PlanShapes.ShareFits | boring_agent/workflows.py:523-542 | when a share is divided, floor division makes the final sum check pass |
| PlanShapes.ChildSpecNarrows | boring_agent/workflows.py:298-363 | whatever the plan asks, a child specification that is built is valid and nowhere wider than its root |
| PlanShapes.ChildSpecCeiling | boring_agent/workflows.py:337-353 | under a bounded workflow a fresh child gets its own written ceiling or at most the share |
| PlanShapes.ArrangedExact | boring_agent/workflows.py:203-209 | the normalized plan holds every document child at the position its order names |
| PlanShapes.PlanGraphClosed | boring_agent/workflows.py:210-217 | a plan whose references are known has a dependency graph that names only its own children |
| PlanGuarantees.NoDeadlock | boring_agent/workflows.py:688-712 | while a revision has an unfinished child, some unfinished child of it waits for no unfinished dependency |
| PlanGuarantees.UnblockedDecides | boring_agent/workflows.py:696-708 | the delivery of such a child is decided at once, never waiting |
| PlanGuarantees.AttemptsGated | boring_agent/workflows.py:688-726 | a child that was ever placed has every dependency of its own revision succeeded and delivered, in every reachable state |
| PlanGuarantees.AuthorityNarrows | boring_agent/workflows.py:314-363 | every child task of every reachable state is pointwise within its root |
| PlanGuarantees.CurrentRevisionOnly | boring_agent/workflows.py:543-560 | unfinished children that still want to run belong to the current plan revision, one task per child key |
| PlanGuarantees.RevisionsRise | boring_agent/workflows.py:497-499 | plan revisions never fall and recorded plans are never rewritten; a plan or replan raises the revision strictly when it is accepted and not at all when it is not |
| PlanGuarantees.AcceptedExactly | boring_agent/workflows.py:485-600 | a plan is accepted exactly when it is a replan or the first plan, and its preparation succeeds; it is then well shaped and recorded under the next revision |
| PlanGuarantees.ReplanReleasesOnlyUnstarted | boring_agent/workflows.py:543-567 | an accepted replan ends only work that is unstarted, keeps launched and Unknown attempts with their reservations, and touches no other task and none of its attempts |
| PlanGuarantees.RejectedReplanHarmless | boring_agent/workflows.py:443-453 | a rejected replan changes nothing but the record of plans |
| ScheduleProofs.SourceFound | boring_agent/workflows.py:438-441 | a dependency key resolves to the row of the consumer's own revision |
| ScheduleProofs.DeliverClears | boring_agent/workflows.py:688-726 | delivery answers ready only when every dependency succeeded and was delivered, and then changed nothing else |
| ScheduleGuarantees.RoundRobinFair | boring_agent/manager.py:228-239 | over whole runs: between two placements on one worker every other worker feasible for all placements in between received one |
| ScheduleGuarantees.TickWorkConserving | boring_agent/manager.py:209-240 | after a tick the capacity is used up, or each eligible task still Pending has no feasible worker or an unsucceeded dependency; no worker was pushed above its slots |
| ScheduleGuarantees.ScheduleRespectsSlots | boring_agent/manager.py:217-222 | a scheduling pass never raises a worker's reservations above its slots |
| CommandGuarantees.SubmitIdempotent | boring_agent/store.py:283-305 | while a command's task exists or its horizon has not passed, resubmission answers with the original task, any other payload conflicts, and neither changes anything, across interleaved retention |
| CommandGuarantees.CreateIdempotent | boring_agent/workflows.py:383-402 | the same for workflow creation: the original task for the same payload of a creation, a conflict for any other creatable payload or a key that a plain submission used, and a refusal for a payload that is not creatable |
| CommandGuarantees.CancelIdempotent | boring_agent/store.py:402-413 | the same for cancellation: the original receipt for the same target, a conflict for anything else |
| CommandGuarantees.PlanIdempotent | boring_agent/workflows.py:612-630 | a repeated plan command returns the first receipt whatever the plan would do now, and any other payload conflicts |
| CommandGuarantees.OnlyDetachedRetired | boring_agent/store.py:343-350 | retention removes only finished tasks that are neither workflow children nor planners, with all their attempts |
| CommandGuarantees.ArtifactsOutliveRows | boring_agent/store.py:372-376 | an artifact is removed only after its task row and attempts are gone and no attempt refers to it |
| CommandGuarantees.IntegrityAtEveryCommit | boring_agent/store.py:355-379 | every commit point keeps the references between tables intact, in the middle of retention or anywhere else: attempts, outbox, roots, child rows, transfers, events, unfinished intents and current attempts |
| CommandGuarantees.RetentionCompletes | boring_agent/store.py:331-388 | an uninterrupted pass over any database leaves no intent, and no row, attempt or artifact of a task that was due, the tasks of an interrupted pass included |
| CommandGuarantees.SuccessOnlyByVerdict | boring_agent/manager.py:138-160 | a task becomes Succeeded only by a commit whose accepting verdict equals attempt, result path, checksum, specification and intent of the rows at that commit |
| Graph.AcyclicHasMinimal | boring_agent/workflows.py:203-246 | in an acyclic graph every nonempty set of nodes has one that depends on none of the set |
| Graph.CycleSearch.Visit | boring_agent/workflows.py:229-240 | the depth-first visit succeeds only when nothing it reached lies on a cycle, and fails only on a cycle |
| Graph.CycleSearch.Check | boring_agent/workflows.py:229-244 | the check accepts exactly the acyclic graphs |
| FateGuarantees.VerdictDecides | boring_agent/manager.py:127-207 | the commit of a verdict decides the task in every reachable state by the rows as they are then: Succeeded with its result, Cancelled or Failed by intent, requeued after the doubling wait exactly when a retry is allowed, Failed otherwise |
| FateGuarantees.AcceptedSucceeds | boring_agent/manager.py:182-193 | an accepted result of a task that still wants to run makes it Succeeded with exactly the result of its attempt |
| FateGuarantees.PlanJoinsCommit | boring_agent/manager.py:188-193 | the commit that makes a planner Succeeded records the plan it produced |
| FateGuarantees.SettleFates | boring_agent/manager.py:162-207 | one settlement gives its task exactly its fate, releases the attempt and touches no other task or attempt |
| TickGuarantees.LivenessDecides | boring_agent/manager.py:80-94 | a tick keeps a launched attempt whose runner is alive and turns one without into Unknown with unknown total |
| TickGuarantees.QueuedDecides | boring_agent/manager.py:63-79 | a Queued attempt ends exactly when its task is cancelled, overdue or its worker is lost, and in the last case its task waits again at once |
| TickGuarantees.FailureDecides | boring_agent/manager.py:95-100 | a failed or cancelled attempt is settled by the next tick, and its task gets exactly its fate |
| TickGuarantees.PendingDecides | boring_agent/manager.py:50-59 | a Pending task ends with the tick that finds it cancelled or past its deadline, and is left for placement otherwise |
| TickGuarantees.DeadlineDecides | boring_agent/manager.py:45-55 | an open task past its deadline without a success in time carries cancel intent for it after the tick |
| TickGuarantees.SuccessAwaitsVerdict | boring_agent/manager.py:95-100 | a tick hands out every success that awaits its verdict, with its rows as they are, and nothing else |
| TickGuarantees.SuccessComesThrough | boring_agent/manager.py:97-187 | a success in time of a wanted task is handed out by the next tick, and an accepting verdict committed then makes the task Succeeded |
| CallerGuarantees.SubmitAccepts | boring_agent/store.py:283-305 | a fresh key submits exactly the valid documents: one new task, wanted and due, and the record of the command |
| CallerGuarantees.CreateAccepts | boring_agent/workflows.py:374-422 | a fresh key creates a workflow exactly when root, planner and limits are valid: the root has the authority and limits of its document, the planner is a new read-only task |
| CallerGuarantees.CancelTakesHold | boring_agent/store.py:402-426 | a first cancellation takes hold in its own commit, whatever state it meets, touches nothing else, and over any continuation its task neither succeeds nor is attempted anew |
| CallerGuarantees.ResolveFails | boring_agent/store.py:547-560 | only an Unknown attempt is resolved, with a confirmation, and as a permanent failure |
| CallerGuarantees.WorkersSeen | boring_agent/store.py:461-476 | registration and heartbeats touch one worker and record when it was seen |
| CallerGuarantees.RetentionTakesAged | boring_agent/store.py:338-353 | retention takes up exactly the tasks that finished at least the retention age ago and belong to no workflow, with every artifact of their attempts |
| CallerGuarantees.PhaseLeavesOthers | boring_agent/store.py:355-396 | a phase of retention touches only rows of its own task and artifacts its intent names |
| CallerGuarantees.PurgesExpired | boring_agent/store.py:380-387 | a tombstone goes exactly when its horizon has passed and its task is gone |
| ChildGuarantees.ChildAsWritten | boring_agent/workflows.py:298-363 | a child is built with a contract if and only if every field is as the document writes it, or the root has it, within the root's authority |
| ChildGuarantees.ProperExactly | boring_agent/workflows.py:187-246 | the shape check accepts exactly the plans within the limit, named apart, that take every place, refer to each other only and can be worked off in some order |
| Graph.AcyclicIffRanked | boring_agent/workflows.py:229-244 | a closed graph is acyclic exactly when its nodes can be ranked above what they depend on |
| AcceptGuarantees.AcceptedIff | boring_agent/workflows.py:485-546 | a plan is accepted if and only if it is due, proper and affordable: attempts and tokens are left, each child can be built with its share of the rest, and what fresh children get fits |
| AcceptGuarantees.AcceptedCreates | boring_agent/workflows.py:569-600 | an accepted plan creates exactly one row for each place, over carried work or a new task with the contract its document spells out |
| AcceptGuarantees.ReplanReplaces | boring_agent/workflows.py:548-567 | an accepted replan ends the unfinished children that have not begun, asks the others to stop, and touches no other task |
| AcceptGuarantees.PlanCommandExactly | boring_agent/workflows.py:602-640 | a plan command under a fresh key settles the plan once and remembers its receipt |
| DeliveryGuarantees.DeliverExactly | boring_agent/workflows.py:688-740 | delivery sends key after key up to the first that is not usable, waits for it while it is open, and otherwise refuses the consumer |
| DeliveryGuarantees.ReadyExactly | boring_agent/workflows.py:688-726 | a consumer is ready if and only if every dependency succeeded and its payload can be built |
| DeliveryGuarantees.AdmitsExactly | boring_agent/workflows.py:746-767 | a workflow admits an attempt exactly while it has tokens and attempts left and has not failed, and a refused child fails for that reason |
| DeliveryGuarantees.TurnExactly | boring_agent/manager.py:214-239 | a due task is placed on the able worker whose turn it is, unless no worker is able or its dependencies or its workflow hold it back |
| DeliveryGuarantees.TickPlacesCompatible | boring_agent/manager.py:209-240 | every attempt a tick creates belongs to a due task, on a worker that was heard of, knows the runtime, may write if needed and keeps within its slots |
| DeliveryGuarantees.NoIdleCapacity | boring_agent/manager.py:209-240 | after a tick the capacity is used up, or each due task was placed, ended, lacks a dependency or has no able worker |
| ReportGuarantees.ClaimExactly | boring_agent/runner.py:239-275 | a claim launches the attempt that waits for it, fails it when the worker may no longer run it, and does nothing otherwise |
| ReportGuarantees.CountsExactly | boring_agent/runner.py:80-96 | a counted response adds its tokens, a confirmed refusal nothing, and anything else makes the total unknown |
| ReportGuarantees.CheckExactly | boring_agent/runner.py:44-50 | the check between operations stops a task that is gone, cancelled or out of time, in that order |
| ReportGuarantees.EndsExactly | boring_agent/runner.py:80-104 | a request answers exactly with a completion that has content and arrives while the task may go on; every other ending has its stated kind |
| ReportGuarantees.BeatExactly | boring_agent/runner.py:32-42 | progress is reported once per interval as running with the known count, and a report that is not applied ends the wait |
| ReportGuarantees.ReportContinues | boring_agent/runner.py:32-37 | a runner reports what it counted under its next number and lives to its first report that is not applied |
| ReportGuarantees.ObserveExactly | boring_agent/store.py:505-545 | a report is applied exactly when it is about the execution under way, newer, and moves to an allowed state; then it changes that row as stated |
| ReportGuarantees.SettlementCharges | boring_agent/workflows.py:769-778 | settled usage is charged to the owning workflow alone and fails it exactly when it exceeds its tokens |
| ReportGuarantees.RejectedPlanFails | boring_agent/workflows.py:443-453 | a rejected plan is recorded, and fails its workflow exactly when no plan was accepted before |
| LifeOutcomes.CompletionExactly | boring_agent/session_lifecycle.py:772-797 | a completion that is not refused closes run, job and session with exactly the reported state and result; a dependent becomes ready exactly when it waits for nothing else, in the session it continues in, holding the reported result |
| LifeOutcomes.StartExactly | boring_agent/session_lifecycle.py:727-770 | a job starts exactly when it is ready and its session is warmed up and free: one more run, counted as its next attempt |
| LifeOutcomes.RetryExactly | boring_agent/session_lifecycle.py:799-814 | a job is queued again exactly when it failed for certain, may be replayed, and its session is not with the operator |
| LifeOutcomes.AdoptExactly | boring_agent/session_lifecycle.py:596-616 | remote preparation is adopted by a new session only |
| LifeOutcomes.ClaimExactly | boring_agent/session_lifecycle.py:618-639 | a warm-up is claimed exactly for a new or ready session, with the steps it lacks |
| LifeOutcomes.CommandExactly | boring_agent/session_lifecycle.py:652-698 | a command is marked before it is sent, and its outcome finishes the step, fails the session or leaves it to the operator |
| LifeOutcomes.RewarmExactly | boring_agent/session_lifecycle.py:884-896 | a stopped warm-up is opened again from the step it stopped at, an uncertain one only with the operator's word |
| LifeOutcomes.EnsureExactly | boring_agent/session_lifecycle.py:320-361 | a session is created once, compared, and takes over a permission mode; a bypass must have been inherited |
| LifeOutcomes.BranchExactly | boring_agent/session_lifecycle.py:497-520 | a session branches once for each job, with its profile and mode, and a bypassing one only into branches it has |
| LifeOutcomes.RegisterExactly | boring_agent/session_lifecycle.py:393-423 | a job is registered once behind its dependencies, with exactly the stated refusals |
| LifeOutcomes.RestartKeepsTheRest | boring_agent/session_lifecycle.py:850-882 | recovery changes exactly the running jobs and runs and the sessions whose command was under way |
| StoreClass.Store.Observe | boring_agent/store.py:494-545 | denied, dropped or applied exactly as specified |
| StoreClass.Store.MergeReport | boring_agent/store.py:525-537 | cumulative usage of one report |
| StoreClass.Store.RetainNext | boring_agent/store.py:355-379 | one durable phase of the oldest intent |
| StoreClass.Store.Retain | boring_agent/store.py:331-388 | the uninterrupted pass equals marking, draining all phases and purging |
| WorkflowClass.WorkflowStore.ValidatePlanShape | boring_agent/workflows.py:187-246 | accepts exactly the well-shaped plans and returns the arrangement given by `order` |
| WorkflowClass.WorkflowStore.SortByOrder | boring_agent/workflows.py:204-209 | accepts exactly contiguous unique orders |
| WorkflowClass.WorkflowStore.CheckChildren | boring_agent/workflows.py:210-228 | accepts exactly when every child's references are known and unrepeated, and collects the graph |
| WorkflowClass.WorkflowStore.ChildSpec | boring_agent/workflows.py:298-363 | field-by-field narrowing equals the specification |
| WorkflowClass.WorkflowStore.DeliverDependencies | boring_agent/workflows.py:688-726 | delivery loop over the dependency keys |
| WorkflowClass.WorkflowStore.Share | boring_agent/workflows.py:518-530 | the equal share of what explicit siblings leave |
| WorkflowClass.WorkflowStore.PreparePlan | boring_agent/workflows.py:501-542 | the whole decision before anything is written |
| WorkflowClass.WorkflowStore.InsertChildren | boring_agent/workflows.py:569-594 | carried and fresh rows of a revision |
| WorkflowClass.WorkflowStore.SettlePlan | boring_agent/workflows.py:485-600 | ignored, rejected or accepted with the new tables |
| WorkflowClass.WorkflowStore.SettlePlanCommand | boring_agent/workflows.py:602-640 | the recorded plan command |
| WorkflowClass.WorkflowStore.Create | boring_agent/workflows.py:374-422 | root and planner task in one transaction |
| ManagerClass.Manager.Decide | boring_agent/manager.py:171-207 | finish, requeue, retry or fail |
| ManagerClass.Manager.Settle | boring_agent/manager.py:162-207 | settlement releases, accounts once and decides |
| ManagerClass.Manager.SettleVerdict | boring_agent/manager.py:187-193 | an accepted planner's plan joins the same commit, which rolls back when the result cannot be read |
| ManagerClass.Manager.Commit | boring_agent/manager.py:136-160 | the rechecking commit transaction |
| ManagerClass.Manager.Probe | boring_agent/manager.py:65-93 | what one look at the current attempt changes |
| ManagerClass.Manager.Reconcile | boring_agent/manager.py:42-100 | one iteration of the tick loop |
| ManagerClass.Manager.ScheduleOne | boring_agent/manager.py:214-239 | delivery, admission and placement of one task; counts the reservation |
| ManagerClass.Manager.Schedule | boring_agent/manager.py:209-240 | the placement loop with its running count equals the specification and stops at capacity |
| ManagerClass.Manager.Tick | boring_agent/manager.py:36-101 | the whole tick transaction and the snapshots it hands out |
| RunnerClass.Controller.Report | boring_agent/runner.py:32-37 | one observation under the next sequence number |
| RunnerClass.Controller.Heartbeat | boring_agent/runner.py:39-42 | progress at most once per interval |
| RunnerOps.BeatsSpaced | boring_agent/runner.py:39-42 | over any wait, observations are at least one interval apart and change nothing but the sequence |
| RunnerClass.Controller.Checkpoint | boring_agent/runner.py:44-50 | no stop only while the task exists, is not cancelled and both clocks are before their ends |
| RunnerClass.Controller.Permit | boring_agent/runner.py:54-59 | the largest output limit and the longest duration that the task, the request and the attempt allow |
| RunnerClass.Controller.Request | boring_agent/runner.py:44-104 | checks the task before the call and after a completion, sends only while the budget allows, waits with heartbeats until one is not applied, counts what the reply used, and ends exactly as the reply and the second check say |
| LifeRunProofs.LifeExecKeeps | boring_agent/session_lifecycle.py:727-896 | every sequence of lifecycle transactions keeps the invariant and the progress relation |
| LifeGuarantees.ExclusiveUse | boring_agent/session_lifecycle.py:752-754 | two running runs share neither a job nor a session |
| LifeGuarantees.RunningAgrees | boring_agent/session_lifecycle.py:755-769 | a running run, its job and its session agree and the session is fully warmed up |
| LifeGuarantees.InUseIsActive | boring_agent/session_lifecycle.py:765-767 | a session marked `running` is named by a running run |
| LifeGuarantees.FinishConsistentIff | boring_agent/session_lifecycle.py:689-698 | the closing transaction of a warm-up keeps the `running` mark exact iff the session is not in use at that moment |
| LifeGuarantees.LateClosingUnmarks | boring_agent/session_lifecycle.py:621-622 | a concrete run in which the mark is lost: a claim that found the session ready closes it after another process started a job on it |
| LifeGuarantees.MarksExact | boring_agent/session_lifecycle.py:641-699 | in every run without such a late closing a session is marked `running` exactly while a running run names it |
| LifeGuarantees.WarmupOrder | boring_agent/session_lifecycle.py:618-699 | `/rpa-init` succeeded implies `/compact` succeeded, and a session that was ever ready keeps both for good |
| LifeGuarantees.RestartLeavesNone | boring_agent/session_lifecycle.py:850-868 | after recovery no run is running; what was running is Unknown with its job and session handed to the operator |
| LifeGuarantees.UncertainNeverReruns | boring_agent/session_lifecycle.py:799-814 | a job whose run became unknown never gets another run, and neither does its session |
| LifeGuarantees.HandoversExact | boring_agent/session_lifecycle.py:533-586 | a transfer exists exactly for each dependency edge into a job that left `pending`, carrying the session and result of the succeeded source |
| LifeGuarantees.HandoverNeverConflicts | boring_agent/session_lifecycle.py:537-541 | the conflict on a reused transfer key is unreachable, in completions and in `ready_jobs` |
| LifeGuarantees.PendingExact | boring_agent/session_lifecycle.py:588-594 | after `ready_jobs` the pending jobs are exactly those with an unsucceeded dependency, unless the call is refused |
| LifeGuarantees.ReadyRefusedIff | boring_agent/session_lifecycle.py:588-594 | in every reachable state `ready_jobs` is refused, and changes nothing, exactly while some due job needs a new branch of a session whose mode bypasses permissions |
| LifeGuarantees.CompletionRefusedIff | boring_agent/session_lifecycle.py:772-797 | the completion of a running run is refused, and changes nothing, exactly when its success would make such a job due |
| LifeGuarantees.BypassBlocksSuccess | boring_agent/session_lifecycle.py:282-283 | a concrete reachable run whose success cannot be recorded |
| LifeClass.SessionLifecycle.EnsureSession | boring_agent/session_lifecycle.py:320-361 | creates a session once or compares it; a known session takes over a new permission mode, and a bypassing mode is refused unless inherited |
| LifeClass.SessionLifecycle.RegisterWorkflow | boring_agent/session_lifecycle.py:437-480 | all or nothing; unfit exactly when the batch is empty, ambiguous, cyclic, invalid or refers to an unknown job; an orderly batch is refused only for a conflict with stored jobs or a missing session, and otherwise every job is registered after all its dependencies |
| LifeClass.SessionLifecycle.SomeAvailable | boring_agent/session_lifecycle.py:466-478 | while specs of an acyclic batch remain, one of them has all dependencies available |
| LifeClass.SessionLifecycle.RecordTransfers | boring_agent/session_lifecycle.py:533-552 | one handover per dependency, refused on different data |
| LifeClass.SessionLifecycle.PrepareChild | boring_agent/session_lifecycle.py:559-586 | the session a ready child continues in, or the refusal of a branch |
| LifeClass.SessionLifecycle.PrepareDependents | boring_agent/session_lifecycle.py:554-586 | all pending children of a succeeded job |
| LifeClass.SessionLifecycle.ReadyJobs | boring_agent/session_lifecycle.py:588-594 | settles the dependents of every succeeded job, or none |
| LifeClass.SessionLifecycle.WarmSession | boring_agent/session_lifecycle.py:641-699 | an undisturbed warm-up sends exactly the missing steps in order up to the first that fails or comes too late, succeeds exactly when all finish in time, and otherwise leaves the session failed or recovering as that step says |
| LifeClass.SessionLifecycle.CompleteRun | boring_agent/session_lifecycle.py:772-797 | closes a run and prepares its dependents, or changes nothing |
| LifeClass.SessionLifecycle.Recover | boring_agent/session_lifecycle.py:850-882 | both recovery loops together equal the recovery specification |

## Left out

- HTTP API, command line, provider clients, discovery, Coddy driver and sandboxing: input and output around the transactions.
- JSON Schema checks, parsing, sizes and paths of documents: one `sound` or `Malformed` mark stands for them.
- Artifact bytes: the content recheck between validation and commit is part of the verdict's `valid` mark.
- The `version`, `observation_condition`, `observed_at`, process identity and message columns, and event details.
- `expire_artifacts`, which removes result bytes and keeps every row.
- The `coddy` block, and the comparison of `retry.on` and `backoff_seconds` with the root, which the program does not make either.
- CommandGuarantees.CreateIdempotent: takes the `sound` mark as a fixed property of a document, so a workspace directory that vanishes between two submissions is not represented.
- RunGuarantees.LaunchLimit: counts attempts whose rows exist; retention removes a task's attempt rows only together, and nothing is attempted afterwards.
- CommandGuarantees.SubmitIdempotent: does not cover a retention call with an explicit `now` in the future of the clock; the steps use times up to the clock.
- ScheduleGuarantees.ScheduleRespectsSlots: stated per scheduling pass, not as an invariant, because a worker may register again with fewer slots.
- ManagerClass.Manager.ScheduleOne: writes the manager's cursor to its setting at each placement instead of once at the end of the same transaction.
- Native sessions: digests, warm-up model choice, deadlines as times (whether a step is too late is a parameter) and the `in_progress` transfer state, which nothing writes.
- Liveness of recovery: a crash between two recorded warm-up steps leaves the session warming, in the program as in the model.
