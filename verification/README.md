# Aceryx case engine: verified model

Aceryx runs cases through workflows. A workflow is a list of steps with dependencies, joins, guards and
outcome routing; the engine evaluates it again and again while executors complete or fail steps, people cancel
or close cases, and every change is written to a hash-chained audit trail. This project models that machinery
in Dafny and proves what it keeps.

| file | what it holds |
|---|---|
| `Workflow.dfy`, `AstValidation.dfy` | steps, the dependency graph, `ValidateAST` with its three-colour search |
| `Settling.dfy`, `Compute.dfy` | the meaning of an evaluation, its rules, and the three-phase loop that computes it |
| `PlainRules.dfy` | the same evaluation rule by rule, in the words of the workflow language |
| `CaseMachine.dfy`, `CaseStore.dfy` | one case as a state machine, and the object whose methods are its transactions |
| `Transactions.dfy` | what each transaction does, field by field |
| `CaseRuns.dfy`, `DependencySafety.dfy`, `Closing.dfy`, `AuditRuns.dfy` | theorems about every run of a case: lifecycle, dispatch, data, dependencies, closing, trail |
| `SmallRuns.dfy` | runs that show the limits of those theorems |
| `JsonText.dfy`, `JsonExtract.dfy` | JSON texts delimit themselves; `extractJSONBlock` |
| `AuditChain.dfy`, `AuditCommitment.dfy` | recording and verifying the audit trail; what its head hash commits to |
| `MergeData.dfy`, `DataDiff.dfy` | deep merge of case data; flattening and field diff |
| `CircuitBreaker.dfy`, `Retry.dfy` | the MCP circuit breaker, retries with backoff |
| `Conversation.dfy`, `AgentRun.dfy` | what an agent's model is sent, and the reasoning loop with its limits |
| `Common.dfy` | shared vocabulary |

How the model reads the system:

- A database transaction is one atomic step, and the transactions of a case follow one another. For evaluation,
  completion, cancellation and data updates the lock on the case row sees to that. `activateFallbackStep`,
  `skipStepTerminal` and `CreateTaskFromActivation` write step rows before they touch the case row; that they are
  serialised too is an assumption of the model. A transaction that rolls back is no step at all.
- A `Store` object carries the run it has been through; `CreateCase` starts it and every public method continues it,
  so the theorems about runs are theorems about the stored case (`StoreObeysRunLaws`).
- Transactions that only add to the trail (tasks claimed, reassigned or escalated, documents, missed deadlines,
  erasure) are `Remark`.
- A guard evaluator is an arbitrary function from expression text to true, false or an error; a missing
  evaluator is an error. A step's stored result is represented by the outcome `extractOutcome` reads from it.
- SHA-256 and the time format are parameters. Nothing assumes that hashes never collide: the commitment theorem
  ends either in equal histories or in two different hashed texts with the same hash.
- The other writers of case data do not compare versions. Channels deep-merge and record `case.updated`
  (`internal/channels/store_pg.go:353-393`); they are `PatchData` at the current version. Webhooks and the agent's
  own case store write shallowly and bump the version; they are `AppendData` at the current version.
- Clocks, executors, model replies, schema checks and JSON validity are parameters too, quantified over.
- `Ranks` is a topological rank; the meaning of a workflow is defined by recursion along one and shown not to
  depend on which.

Where the code does not keep what its design promises, the model follows the code, exhibits an input, and
states exactly when the promise holds:

- Creating a human task sets its step to active without looking at the state
  (`internal/tasks/tasks.go:217-226`). A task created after a cancellation revives the step
  (`CancelledTaskComesBack`); one created after its step was completed leaves a dependent step active although its
  dependency is not done (`SequelRunsAhead`). The lifecycle is monotone, a cancellation final and dependencies
  respected exactly in the runs without such a write, each theorem saying which writes do harm
  (`LifecycleIsMonotone`, `CancellationIsFinal`, `DependenciesAreRespected`).
- `RecordSuccess` closes an open circuit at once (`internal/mcp/circuit.go:74-81`), so a call granted before the
  circuit opened ends the cool-down when it reports late (`LateSuccessSkipsCoolDown`, `LeavingOpen`).
- Exponential backoff wraps around in 64 bits; from the 65th retry on it does not wait at all
  (`LateRetriesDoNotWait`, `ExponentialIsIdealExactly`).
- The reasoning, component, extraction and MCP executors report audit pairs that are not registered, so
  `completeStep` rolls their completions back (`ExecutorPairsNeverComplete`); a completion changes the case exactly
  when the row is active and the pair registered (`UnregisteredPairRollsBack`).
- A clock that stands at or before Go's zero time right after an event stamped with it breaks the strict order of
  timestamps, and nothing else does (`EveryTrailVerifies`, `ZeroClockRepeats`, in runs `TrailIsSoundExactly`). A
  clock that reads later than that is never lost (`RunningClockIsNeverLost`).
- Old messages of an agent are summarised by position (`internal/agentic/context_mgmt.go:10-44`), which can cut a
  round in two: the model is then sent answers whose calls are gone. `SentPairsExactly` says exactly when, and
  `ManyCallsBreakPairs` that a reply with 23 calls always does it.
- Field diffs name leaves by dotted paths (`internal/cases/merge.go:47-94`). Keys with dots, or empty keys, let two
  leaves share a name, and the order in which Go visits its maps decides which one is found. Then a change can be
  hidden or reported where there is none (`DottedKeyFakesChange`), and `DiffIsRightExactly` says when the diff can be
  trusted about a name whatever the order.
- `CloseCase` counts active steps before its transaction (`internal/cases/cases_crud.go:339-365`), so a step
  activated in between is active in the closed case (`ClosedWhileActive`). The closed case has no active step exactly
  when everything started since the count has been ended since (`ClosingIsCleanExactly`).
- Evaluation stops for cancelled cases only (`internal/engine/engine.go:46`), so a case closed with open steps goes on
  starting them (`ClosedCaseGoesOn`); one closed without any starts none but by a stray task (`ClosedStaysQuiet`).

## Model

| member | source | states |
|---|---|---|
| Workflow.StepMapIgnoresOrder | internal/engine/ast.go:78-84 | two listings of the same steps, unique ids in one of them, give the same step map |
| Workflow.WellFormedIgnoresOrder | internal/engine/ast.go:22-76 | a permuted listing of a well-formed workflow is well formed |
| Workflow.RankedIsAcyclic | internal/engine/ast.go:50-73 | a graph with a topological rank has no dependency cycle |
| AstValidation.Visit | internal/engine/ast.go:50-67 | the recursive visit terminates; it finishes the step and all it depends on in topological order, or exhibits a cycle through the reported step |
| AstValidation.ScanSteps | internal/engine/ast.go:27-40 | builds the step map when no step is defective, else reports the defect of the first defective step |
| AstValidation.ScanDependencies | internal/engine/ast.go:42-48 | accepts exactly when every dependency is a step, else names a step and its unknown dependency |
| AstValidation.SearchCycles | internal/engine/ast.go:69-73 | yields a topological rank of the whole graph or an actual cycle |
| AstValidation.ValidateAST | internal/engine/ast.go:22-76 | accepts exactly the well-formed acyclic workflows; acceptance gives a topological rank, refusal a true diagnosis, of the first step with a missing id, a repeated id or an unknown join in that order, and only then of dependencies and cycles |
| AstValidation.WellFormedPlainly | internal/engine/ast.go:22-76 | what is accepted: at least one step, each with an id of its own and a known join, dependencies that are steps, and no cycle |
| Settling.SolutionIsMeaning | internal/engine/compute.go:28-207 | the local equations of routing, joins and guards have exactly one solution on an acyclic graph, the recursive meaning |
| Settling.MeaningIsSolution | internal/engine/compute.go:28-207 | the recursive meaning solves the equations at every step |
| Settling.MeaningIgnoresRank | internal/engine/compute.go:28-207 | the meaning does not depend on the topological rank it is computed along |
| Settling.RoutingIsFixed | internal/engine/compute.go:31-82 | which steps are routed away cannot change during an evaluation |
| Settling.DecidedJoinIsFinal | internal/engine/compute.go:109-164 | a join decided by intermediate states is decided the same by the final ones |
| Settling.FiringStaysOnTrack | internal/engine/compute.go:28-207 | firing any enabled rule leads every step further towards its meaning |
| Settling.AnyMaximalDerivationMeans | internal/engine/compute.go:28-207 | confluence: rules fired in any order until none is enabled end in the recursive meaning |
| Settling.EvaluationIgnoresOrder | internal/engine/compute.go:8-211 | if evaluation succeeds for one listing of the steps, every permutation is a valid workflow, meets no broken guard, and every evaluation of it ends in the same rows |
| Settling.DerivationRaises | internal/engine/compute.go:65-201 | no transition lowers a step's rank, and every nonempty log strictly raises one |
| Settling.EvaluationIsIdempotent | internal/engine/compute.go:204-207 | evaluating the settled states again with the same guards succeeds, and its only transition list is the empty one |
| Settling.StallsOnlyBehindFailure | internal/engine/compute.go:84-164 | with nothing active, something stays pending exactly when a pending all-join step has only terminal dependencies, none completed and one failed; without failures every step ends completed or skipped |
| PlainRules.UnchosenBranchIsSkipped | internal/engine/compute.go:31-82 | an open step listed under some outcome of a completed dependency but not under the chosen one ends skipped |
| PlainRules.ReadyStepObeysItsGuard | internal/engine/compute.go:167-202 | a ready step whose completed dependencies chose outcomes that list it starts without a guard, and with one starts or is skipped as the guard says |
| PlainRules.PendingStepObeysItsJoin | internal/engine/compute.go:109-164 | a pending step of the chosen branch ends as its dependencies do: any waits for one ended, all or no join named waits for all ended and one completed, is skipped if all were, and stays behind failures |
| PlainRules.StartedStepsStay | internal/engine/compute.go:84-202 | steps that have started or ended keep their row, and no evaluation writes an outcome |
| PlainRules.LogSaysPlainly | internal/engine/compute.go:55-201 | every logged transition names its true states, reason and outcome |
| Compute.KeyIsInjective | internal/engine/compute.go:65-66 | the textual keys of the seen set identify step and kind |
| Compute.TryFire | internal/engine/compute.go:92-105 | the seen set never suppresses an enabled rule |
| Compute.ReverseDependencies | internal/engine/ast.go:86-94 | lists under each id exactly the steps that depend on it |
| Compute.RoutePhase | internal/engine/compute.go:31-82 | fires only routing rules that apply, and leaves no routed-away step open |
| Compute.CountDependencies | internal/engine/compute.go:109-127 | the four counters say whether some dependency is terminal, some completed, all skipped, all terminal |
| Compute.DecideJoin | internal/engine/compute.go:129-164 | the all and any joins decide to go, to skip or to wait as the join's definition says, with the right reason |
| Compute.JoinPhase | internal/engine/compute.go:84-165 | fires only joins that are decided; if nothing changed, every pending step has to wait |
| Compute.GuardPhase | internal/engine/compute.go:167-202 | leaves no step ready, or reports a ready step whose guard cannot be evaluated |
| Compute.Pass | internal/engine/compute.go:28-207 | a pass makes progress in a well-founded order, or has shown that no rule can fire |
| Compute.ComputeTransitions | internal/engine/compute.go:8-211 | fails exactly on an ill-formed workflow or a step whose meaning is held by a guard that has no evaluator or cannot be evaluated; otherwise the log is a derivation of the rules whose final states are the recursive meaning |
| Compute.ReplayOnStoredRows | internal/engine/engine.go:127-164 | on the stored rows a transition matches exactly when its step has a row, and stored rows end as computed |
| CaseRuns.LogMatchesRows | internal/engine/engine.go:127-164 | every conditional update of the log matches its row and changes it |
| CaseRuns.DispatchIsActivation | internal/engine/engine.go:91-95 | the dispatch list is exactly the steps that moved to active, each once |
| CaseStore.CreateCase | internal/cases/cases_crud.go:79-101 | fails exactly when two steps share a nonempty id; otherwise the case has one pending row per step with an id, version one and one audit event, and its run begins |
| CaseStore.Store.InsertSteps | internal/cases/cases_crud.go:83-90 | the loop inserts a pending row per step id and stops exactly at a repeated one |
| CaseStore.Store.Record | internal/audit/audit.go:196-264 | appends the event, or fails and leaves the trail alone when the pair is unregistered |
| CaseStore.Store.ApplyTransition | internal/engine/engine.go:127-164 | each kind of transition finds its row in the states its update names and writes one state there, keeping the outcome and the other rows, with its audit event |
| CaseStore.Store.ApplyLog | internal/engine/engine.go:75-96 | rows, trail and dispatch list after the loop are the replay, the recorded events and the activated steps of the log |
| CaseStore.Store.EvaluateDAG | internal/engine/engine.go:20-125 | a cancelled case or a failed computation changes nothing; otherwise it is the next transaction of the run, an allowed evaluation, and returns the steps it activated |
| CaseStore.Store.EvaluateRows | internal/engine/engine.go:46-104 | on any rows: rows, trail and dispatch list are those of a successful evaluation, steps without a row counting as pending |
| CaseStore.EvaluationIsTransaction | internal/engine/engine.go:20-125 | when every step has its row, what was evaluated is an allowed evaluation transaction of the case |
| CaseStore.RowlessStepStarts | internal/engine/compute.go:15-23 | a step without a row and without anything to wait for is handed to an executor |
| CaseStore.RowlessStepWaits | internal/engine/compute.go:15-23 | an all join without a row is not started while a dependency is active |
| CaseStore.Store.CompleteStep | internal/engine/step_terminal.go:18-103 | row, outcome, data, version and audit event move together or nothing does: every key of the output has its value in the data, every other key is as it was; refused exactly when the row is not active or the pair unregistered |
| CaseStore.Store.FailStep | internal/engine/step_terminal.go:125-159 | fails an active row; the event is recorded even when no row matched |
| CaseStore.Store.SkipStepTerminal | internal/engine/step_terminal.go:178-206 | skips an active row; the event is recorded even when no row matched |
| CaseStore.Store.ActivateFallbackStep | internal/engine/execution_retry.go:140-161 | readies the target exactly when it is pending |
| CaseStore.Store.FinishExhausted | internal/engine/execution_retry.go:114-138 | skips the step for "skip", fails it and readies the target for "goto:" and a target, and otherwise fails it |
| CaseStore.Store.CancelCase | internal/engine/cancel.go:16-66 | skips open steps and active human tasks, sets the status and bumps the version; an invalid workflow changes nothing |
| CaseStore.Store.SkipHumanTasks | internal/engine/cancel.go:46-60 | exactly the active human tasks are skipped by the loop |
| CaseStore.Store.CountActive | internal/cases/cases_crud.go:340-348 | positive exactly when a step is active |
| CaseStore.Store.CloseCase | internal/cases/cases_crud.go:349-373 | refused exactly when the count read beforehand was positive; otherwise overwrites the status whatever the steps are now |
| CaseStore.Store.UpdateCaseData | internal/cases/cases_crud.go:262-330 | conflict exactly on a version mismatch; otherwise at every path stores the patch's leaf, nothing where the patch touches the path, and else the old leaf, and bumps the version, or refuses and changes nothing |
| CaseStore.Store.UpdateFromChannel | internal/channels/store_pg.go:353-393 | an empty patch writes nothing; otherwise the patch's leaves win over the current data and the version rises, or invalid data are refused and nothing changes |
| CaseStore.Store.AppendCaseData | internal/engine/step_terminal.go:215-234 | shallow write and version bump exactly when the version matches |
| CaseStore.Store.CreateTask | internal/tasks/tasks.go:217-233 | the row becomes active whatever its state was |
| CaseStore.Store.RecordRemark | internal/tasks/task_lifecycle.go:94-101 | adds one event when the pair is registered and leaves rows, data, version and status alone |
| CaseStore.StoreObeysRunLaws | internal/engine/engine.go:70-123 | a stored case was dispatched no step twice, has a bounded number of changes, and a sound trail exactly when the clock was kept |
| CaseStore.SplitAuditType | internal/engine/step_terminal.go:81-97 | the loop over separators computes the audit pair |
| Transactions.AuditPairPlainly | internal/engine/step_terminal.go:81-97 | the audit type splits at its first dot, else at its first slash, into two nonempty parts; without either it is a type with action completed, and otherwise step completed |
| Transactions.RegistryPlainly | internal/audit/audit.go:64-81 | what may be recorded under each event type, and under no other |
| Transactions.CompletionPlainly | internal/engine/step_terminal.go:39-100 | a completion of an active step with a registered pair writes row, outcome, output, version and event, and any other changes nothing |
| Transactions.EndingPlainly | internal/engine/step_terminal.go:125-206 | failing or giving up ends an active row, keeps everything else, and adds one step event |
| Transactions.FallbackPlainly | internal/engine/execution_retry.go:140-161 | a pending target becomes ready and nothing else changes |
| Transactions.CancelPlainly | internal/engine/cancel.go:31-64 | open steps and active human tasks are skipped, the version rises, the data stay, one event by a human |
| Transactions.ClosePlainly | internal/cases/cases_crud.go:359-369 | only the status and one event change |
| Transactions.PatchPlainly | internal/cases/cases_crud.go:285-330 | on a matching version an accepted patch is merged, the version rises and one event is added; otherwise nothing changes |
| Transactions.AppendPlainly | internal/engine/step_terminal.go:215-234 | on a matching version the patch overwrites key by key and the version rises; otherwise nothing changes |
| Transactions.TaskPlainly | internal/tasks/tasks.go:217-233 | the row becomes active with its outcome kept, and one task event is added |
| Transactions.RemarkPlainly | internal/tasks/task_lifecycle.go:94-101 | the ten audit-only transactions add one event each and change nothing else |
| Transactions.EvaluationPlainly | internal/engine/engine.go:70-104 | an evaluation changes rows and events only; there is one event per activation and skip, in order, and the steps handed over are those that became active |
| Transactions.CreationPlainly | internal/cases/cases_crud.go:60-97 | a new case is open at version one with its data, a pending row per step id and one event |
| CaseStore.ExecutorPairsNeverComplete | internal/agentic/step.go:146-151 | completions reported with the listed executors' pairs never change a case |
| CaseRuns.NextLifts | internal/engine/step_terminal.go:39-62 | a transaction keeps the lifecycle rising and terminal rows frozen exactly when it does not revive an ended step |
| CaseRuns.LifecycleIsMonotone | internal/engine/engine.go:127-164 | throughout a run every row only rises pending, ready, active, terminal, exactly when no ended step is revived |
| CaseRuns.LiftingPlainly | internal/engine/step_terminal.go:39-62 | rising means, row by row: pending may become anything else, ready anything started or ended, active anything ended, and an ended row is frozen |
| CaseRuns.NextPays | internal/engine/cancel.go:31-60 | every state change of a transaction that revives no step is matched by a rise in total rank |
| CaseRuns.RevivalCosts | internal/tasks/tasks.go:217-226 | activating a step again lowers the total rank by at most one |
| CaseRuns.ChangesAreBounded | internal/engine/engine.go:77-123 | in any run a case of n steps sees at most 3n state changes, and two more for every revived step |
| CaseRuns.DispatchedAtMostOnce | internal/engine/engine.go:121-123 | evaluation dispatches each step at most once in any run |
| DependencySafety.JustificationStays | internal/engine/compute.go:109-164 | what justified a step's start cannot be lost while terminal rows are frozen |
| DependencySafety.ActivationIsJustified | internal/engine/compute.go:84-202 | a pending step that evaluation activates is justified by its settled dependencies |
| DependencySafety.StrayTaskIsSafeExactly | internal/tasks/tasks.go:217-226 | a task created for a step that is not active keeps dependency safety exactly when the step could have been started and every started step behind it is an any join with another dependency ended |
| DependencySafety.DependenciesAreRespected | internal/engine/compute.go:31-202 | throughout a run a started step that no fallback readied has no dependencies, or all terminal with one completed and no routing away, or for an any join one terminal; exactly when every stray task is harmless |
| CaseRuns.RunStallsOnlyBehindFailure | internal/engine/engine.go:70-104 | after any evaluation of a run nothing is ready, and with nothing active steps are pending exactly behind a failure |
| CaseRuns.NextStaysDormant | internal/engine/cancel.go:38-44 | a case without open steps keeps none, and only a stray task activates a step of it |
| CaseRuns.DormancyIsFinal | internal/engine/compute.go:84-202 | once no step is open none ever is again, and only a stray task activates one |
| CaseRuns.CancellationIsFinal | internal/engine/cancel.go:31-60 | after a cancellation no step is open ever again, and a later transaction activates one exactly when it creates a stray task, even after the status was overwritten |
| Closing.NextIsActiveExactly | internal/engine/step_terminal.go:39-62 | after a transaction a step is active exactly when it was dispatched or given a stray task, or was active and has not been completed, failed, given up or cancelled |
| Closing.ActiveSinceExactly | internal/engine/engine.go:77-123 | a step that was not active is active later in a run exactly when some transaction started it meanwhile and none has ended it since |
| Closing.ClosingIsCleanExactly | internal/cases/cases_crud.go:339-373 | closing after a count of zero leaves no step active exactly when every step started since the count has been ended since |
| Closing.ClosedStaysQuiet | internal/engine/engine.go:46-50 | a case closed without open steps never has one again, and only a stray task starts a step of it |
| CaseRuns.VersionsRise | internal/engine/step_terminal.go:64-79 | versions never fall, and data only change together with the version |
| CaseRuns.VersionIdentifiesData | internal/cases/cases_crud.go:310-321 | two reads of one version in a run see the same data |
| CaseRuns.PatchMergesWhatWasRead | internal/cases/cases_crud.go:285-321 | after a successful patch every path holds the patch's leaf, nothing where the patch touches it, and else the leaf of the data its caller read |
| AuditRuns.TrailIsSoundExactly | internal/audit/audit.go:213-247 | in every run the case's trail is a chain with strictly increasing timestamps exactly when no event was recorded while the clock was lost at the zero time |
| AuditRuns.TrailIsAlwaysProper | internal/audit/audit.go:207-209 | in every run each recorded event has a registered pair, an actor id and object data |
| AuditRuns.RunHeadsCommit | internal/audit/audit.go:83-134 | two runs whose trails verify and share the head hash recorded the same history of the same case, or exhibit a collision |
| SmallRuns.CancelledTaskComesBack | internal/tasks/tasks.go:217-226 | a run in which a task created after the cancellation makes a skipped step active again |
| SmallRuns.SequelRunsAhead | internal/tasks/tasks.go:217-226 | a run in which a task created after its step was completed leaves the dependent step active and unjustified |
| SmallRuns.ClosedWhileActive | internal/cases/cases_crud.go:339-365 | a run in which nothing is active at the count and a step is active in the closed case |
| SmallRuns.ClosedCaseGoesOn | internal/engine/engine.go:46-50 | a run in which an evaluation starts a step of a closed case |
| JsonText.JsonCarries | internal/agentic/output.go:72-103 | any JSON text, whatever its strings contain, is passed over without touching the depth |
| JsonText.ObjectClosesAtItsEnd | internal/agentic/output.go:72-103 | the depth first returns to zero at the last character of an object text |
| JsonText.ObjectTextDelimitsItself | internal/audit/audit.go:89-109 | object texts are prefix free |
| JsonExtract.ScanBlock | internal/agentic/output.go:69-104 | the scanning loop finds the first closing brace |
| JsonExtract.ExtractJSONBlock | internal/agentic/output.go:64-105 | returns the block from the first opening brace to its closing one when it is valid JSON, else nothing |
| JsonExtract.PrintedObjectIsExtracted | internal/agentic/output.go:64-105 | an object text after brace-free prose and before anything is extracted exactly |
| AuditChain.VerifyChain | internal/audit/audit.go:111-134 | true exactly when every event is of the first one's case, not earlier than its predecessor, points to its hash or the genesis hash, and carries the hash of its fields; otherwise the least broken index, and whether the case differs there |
| AuditChain.FindLatest | internal/audit/audit.go:217-223 | an event of the trail such that none is newer by time, then id |
| AuditChain.RecordCaseEvent | internal/audit/audit.go:196-264 | fails exactly on an unregistered pair; otherwise appends one event that says what was asked, points to the newest event, is later than it by the clock or by one microsecond, and carries the hash of its fields |
| AuditChain.LatestIsLast | internal/audit/audit.go:217-223 | with increasing timestamps the newest event is the one recorded last |
| AuditChain.RecordingKeepsIncreasing | internal/audit/audit.go:235-238 | timestamps stay strictly increasing exactly when the clock was not lost at the zero time |
| AuditChain.RecordingKeepsChain | internal/audit/audit.go:213-247 | a recorded event extends the chain |
| AuditChain.EveryTrailVerifies | internal/audit/audit.go:196-264 | for any sequence of recordings the timestamps increase strictly exactly when no event is recorded while the clock is lost at the zero time, and then the trail verifies |
| AuditChain.ZeroClockRepeats | internal/audit/audit.go:235-238 | with the clock at the zero time two events get the same timestamp |
| AuditCommitment.PayloadIsUnambiguous | internal/audit/audit.go:89-94 | the unseparated payload determines every hashed field |
| AuditCommitment.GenesisIsNoPayload | internal/audit/audit.go:83-94 | a genesis text is never an event payload |
| AuditCommitment.HeadCommits | internal/audit/audit.go:83-134 | two verified trails with one head hash agree on case, length and all hashed fields, or exhibit a collision |
| MergeData.DeepMerge | internal/cases/merge.go:5-33 | the loop over the patch computes the recursive merge, in any key order |
| MergeData.MergeIsIdempotent | internal/cases/merge.go:5-33 | merging a patch twice is merging it once |
| MergeData.MergeLeaves | internal/cases/merge.go:5-33 | the leaves of a merge are the patch's leaves, nulls included, and the base's leaves the patch does not touch |
| MergeData.MergePlainly | internal/cases/merge.go:5-33 | merging loses no key and invents none, and the patch's leaves win |
| DataDiff.DottedIsInjective | internal/cases/merge.go:47-59 | with nonempty dot-free keys a dotted path names one path |
| DataDiff.FlattenMap | internal/cases/merge.go:47-59 | for any keys and any order of visits the names are those of the leaves, each with the value of the leaf of that name that the order visits last, and nothing else changes |
| DataDiff.FavouredLeafWins | internal/cases/merge.go:47-59 | every leaf wins its name in some order of the visits: the one in which its keys come last |
| DataDiff.ComputeFieldDiff | internal/cases/merge.go:61-94 | for all data and orders the diff of the two flattenings, never with an empty name, each side the value of a leaf of that name or null; with nonempty dot-free keys it holds exactly the paths whose leaf differs |
| DataDiff.DiffIsRightExactly | internal/cases/merge.go:61-94 | in every order of the visits the diff lists a name exactly when a leaf of that name changed, if and only if a changed name keeps no old value and an unchanged one has a single value |
| DataDiff.DottedKeyFakesChange | internal/cases/merge.go:47-94 | a dotted key beside a nested one: two orders of visits in which unchanged data are reported as changed |
| DataDiff.ChangesDescribe | internal/cases/merge.go:61-94 | with clean keys any two flattenings give the diff that names exactly the changed paths |
| DataDiff.DiffLeadsToAfter | internal/cases/merge.go:61-94 | applying the diff to the leaves of either version yields those of the other, null standing for absent |
| CircuitBreaker.Circuit.constructor | internal/mcp/circuit.go:29-45 | positive settings are kept; others become 60 seconds, five failures and five minutes; the breaker starts closed |
| CircuitBreaker.Circuit.Allow | internal/mcp/circuit.go:47-72 | grants as the state prescribes and moves an open breaker past its cool-down to half-open |
| CircuitBreaker.Circuit.RecordSuccess | internal/mcp/circuit.go:74-81 | resets the breaker from any state |
| CircuitBreaker.Circuit.RecordFailure | internal/mcp/circuit.go:83-101 | counts the failure, reopens a half-open breaker, opens at the threshold |
| CircuitBreaker.InvokeTool | internal/mcp/manager.go:102-122 | a refused call reports nothing; a granted one succeeds exactly when authentication and the call do, and makes exactly the one report |
| CircuitBreaker.BreakerMatchesHistory | internal/mcp/circuit.go:47-101 | closed means the count is the current run of failures within the window and below the threshold; the failure time is the latest; only half-open has a probe out |
| CircuitBreaker.LeavingClosed | internal/mcp/circuit.go:93-100 | a closed breaker grants every request and opens exactly when a failure makes the run within the window as long as the threshold |
| CircuitBreaker.LeavingOpen | internal/mcp/circuit.go:55-61 | an open breaker grants exactly after the cool-down since the latest failure; a request then makes it half-open, a late success closes it, nothing else moves it |
| CircuitBreaker.LeavingHalfOpen | internal/mcp/circuit.go:63-91 | a half-open breaker refuses every request and is left exactly by a report: a success closes it, a failure opens it |
| CircuitBreaker.FailedProbeReopens | internal/mcp/circuit.go:87-91 | after a failed probe the next request is granted exactly once the cool-down has passed again |
| CircuitBreaker.SuccessForgets | internal/mcp/circuit.go:74-81 | after a success the breaker behaves as if nothing had happened before |
| CircuitBreaker.LateSuccessSkipsCoolDown | internal/mcp/circuit.go:74-81 | for every threshold a history in which calls are refused in the cool-down and a late success ends it at once |
| CircuitBreaker.OneProbePerHalfOpen | internal/mcp/circuit.go:63-70 | once open, exactly one call is granted before the next report if any is asked after the cool-down, else none |
| Retry.BackoffIsBounded | internal/engine/execution_retry.go:163-181 | for every policy and retry count, overflow included, the delay lies between zero and the larger of the two delays |
| Retry.OtherBackoffs | internal/engine/execution_retry.go:166-170 | no wait, a capped linear wait while the product fits, a capped constant wait for an unknown name |
| Retry.ExponentialIsIdealExactly | internal/engine/execution_retry.go:171-180 | the exponential delay is the capped power exactly when the product did not overflow or its wrapped value hits the cap |
| Retry.ExponentialRises | internal/engine/execution_retry.go:171-180 | before overflow the exponential delay never falls |
| Retry.LateRetriesDoNotWait | internal/engine/execution_retry.go:171-180 | from the 65th retry on the exponential delay is zero |
| Retry.ExecuteWithRetry | internal/engine/execution_retry.go:16-62 | no call without an executor; otherwise at least one and at most max(1, attempts - r) calls, three attempts for integrations and agents and one for others by default, exactly that many when exhausted alone, one backoff between calls; exhausted means skip for "skip", goto for "goto:" and a target, else failure |
| Common.SpaceIsTrimmed | internal/agentic/validate_tool.go:16-19 | names are compared after all space at both ends, and nothing else, is taken away |
| Common.AsciiSpace | internal/agentic/validate_tool.go:16-19 | in ASCII that is tab, line feed, vertical tab, form feed, carriage return and blank |
| AgentRun.NewToolManifest | internal/agentic/tools.go:20-31 | a name resolves to the last tool listed under it |
| AgentRun.Assemble | internal/agentic/tools.go:100-141 | offers exactly the tools of the nodes the policy references whose safety the mode permits; fails exactly when a referenced node cannot be built |
| AgentRun.AuthorisedPlainly | internal/agentic/tools.go:175-186 | full permits every tool, restricted_write adds idempotent_write to the read-only ones, any other mode permits only those |
| AgentRun.SelectedPlainly | internal/agentic/tools.go:112-140 | a tool is selected exactly when some node that can be built, is referenced and is permitted has it |
| AgentRun.SelectedInOrder | internal/agentic/tools.go:120-140 | selected tools keep the order of their nodes |
| AgentRun.ConstraintEnforcer.constructor | internal/agentic/types.go:46-59 | positive limits are kept; others become 10 iterations, 20 tool calls and 50000 tokens |
| AgentRun.ConstraintEnforcer.CheckTokenBudget | internal/agentic/constraints.go:41-53 | hard stop exactly at the budget, warning from four fifths of it |
| AgentRun.HandleToolCalls | internal/agentic/runner.go:179-276 | each call gets the answer its case deserves: limit reached, unknown tool, bad arguments, failure or result; the resolvable valid calls within the budget are invoked, in order |
| AgentRun.InvocationsStayWithinLimits | internal/agentic/runner.go:179-237 | whatever the replies, no more than MaxToolCalls tools are invoked, all from the manifest |
| AgentRun.EveryCallIsAnswered | internal/agentic/runner.go:178-276 | each call has exactly one answer, at its position and under its id: limit reached beyond the budget, unknown when the trimmed name stands for no tool, bad arguments when that tool refuses them, else the outcome of the invocation |
| AgentRun.NamedToolIsInvoked | internal/agentic/runner.go:199-237 | a call invokes the tool its trimmed name stands for, exactly when it is within the budget and its arguments are accepted |
| AgentRun.EveryInvocationIsReported | internal/agentic/runner.go:232-263 | as many answers report a tool outcome as tools were invoked |
| Conversation.SummaryPlainly | internal/agentic/context_mgmt.go:10-44 | up to 24 messages are kept; of more, the first, a summary and the last 22 |
| Conversation.SentIsPairedExactly | internal/agentic/context_mgmt.go:10-44 | at most 24 messages, goal first; calls and answers pair up after summarising exactly when the kept tail does not start inside a round |
| AgentRun.SentPairsExactly | internal/agentic/runner.go:109-123 | in every run each request has at most 24 messages, the goal first and from the last iteration on the order to conclude last, and its calls and answers pair up exactly when summarising cut no round |
| AgentRun.ManyCallsBreakPairs | internal/agentic/context_mgmt.go:10-44 | after a reply with 23 or more calls the next request always carries answers without their call |
| AgentRun.ActOn | internal/agentic/runner.go:177-324 | a reply that uses tools appends its calls and an answer to each; another concludes, or appends the refusal, or is an error the third time |
| AgentRun.Request | internal/agentic/runner.go:106-175 | the messages sent, the tokens after the reply, and the three ways on: failed chat, spent budget, or the reply with its warning |
| AgentRun.RunRound | internal/agentic/runner.go:106-324 | a round ends the run exactly on a failed chat, a spent budget, a third bad conclusion or a good one |
| AgentRun.Run | internal/agentic/runner.go:94-324 | progress, counters and every request sent are those of the replies handled; each ending has its cause; with at least one token per reply it stops within MaxTokens rounds |
| AgentRun.RunStep | internal/agentic/step.go:69-101 | every tool a reasoning step invokes is referenced by its policy and permitted by its mode, and there are at most MaxToolCalls |

## Left out

- AgentRun.Run: the timeout is an arbitrary predicate of the round; the wording of messages and summaries is not modelled.
- Aliasing of nested maps that `cloneMap` breaks up: the model works on values.
- The database itself: SQL, locks, deadlocks, 32-bit version overflow and timeouts; metrics and logging.
- SHA-256, JSON decoding, jsonb normalisation and time formatting as code; data are compared in canonical text.
- `VerifyCaseChain`, which reads at most 200 events; the chain theorems are about `VerifyChain`.
- Worker pools, `Engine.Wait`, startup recovery and the SLA monitor: no liveness is claimed.
- Assignees, drafts and deadlines of human tasks; completing one is the `Complete` transaction with its own audit pair.
- Executors, connectors, model adapters, the expression evaluator, vault, HTTP, front end: foreign calls and plumbing.
- Schema validation, search, reports and paging: wide but shallow.
