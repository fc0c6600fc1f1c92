# Verified model of Lumic's deployment core

Lumic manages Linux hosts. This project models, in Dafny, the parts of it that carry state machines,
graph algorithms, printers and compilers, and proves what they keep, refine or reverse.

**Releases** (`crates/lumic-platform/src/application.rs`). `Releases` is the step machine of deploy,
rollback, pruning and cancellation of one application. A step is one access to shared state: a write of
the deployment list, a look at a cancellation marker, a change of the release directories, of the
`current` link, of a unit or of the nginx upstream, or an external command. The event says what the
environment answered; `Apply` is deterministic and `Run` takes any sequence of events. Cancelling is three
steps (read the record, write the marker, write the record back), because the source reads the record
long before it writes it. `ReleaseInvariant` gives every reachable state in closed form, as a function of the
world in which the running operation began, and `ReleaseCompletions` says exactly which Completed records the
list holds after any run. `ReleasePaths`, `ReleasePhases` and `ReleaseRecords` say which steps operations take, and
what records they leave, in terms of the configuration alone; the other `Release*` modules derive the properties.
`ReleaseService.Service` holds the same procedures as they are written, with mutable fields, loops and
early returns; each access to shared state performs its effect and is proved to be the machine's next step,
with cancellations of other processes let in between. So every result about runs holds of every state those
procedures pass through.

**Bindings** (`crates/lumic-core/src/binding.rs`): depth-first search over shared `visiting` and `visited`
sets, proved exact, and the order in which resources can be torn down.

**Pipelines and journals** (`crates/lumic-core/src/pipeline.rs`): pipeline validation, the execution object
with its guarded mutators, and invariants over every run of it: what a status says of the reports made.

**Planning** (`crates/lumic-core/src/application_lifecycle.rs`): every valid application specification plans
a valid pipeline with exactly the steps it asks for, and removal reverses reconciliation.

**Printers** (`crates/lumic-platform/src/app_process.rs`, `render_environment_file`): unit command lines,
escaped paths and environment files, each with a reader written from the systemd manual pages, and round
trips over unbounded input.

**Cron** (`crates/lumic-core/src/application_manifest.rs`) and **configuration schemas**
(`crates/lumic-core/src/catalog.rs`): a compiler that preserves meaning, and resolution as a fixpoint.

## What the code does and does not do

- A cancellation's last write carries the record as it was read. A running deploy repairs its own record with its
  next write; after its last write nothing does, and a Completed record stays Cancelling. `Demoted` names the ids
  to which that happened in a run. The Completed records are exactly the completions that were not demoted
  (`ReleaseCompletions.HistoryOfRuns`), so between operations the live release is one that a Completed deployment
  recorded if and only if its id was not demoted (`ReleaseOutcomes.SafeExactly`, `LiveReleaseIsSafe`);
  `LateWriteHappens` is a run where it was. That `current` never dangles, which releases stay on disk and what a
  failed deploy leaves do not depend on it.
- When the record of the live Node release was demoted, the next deploy or rollback does not find that release.
  A deploy then starts on the primary port, whatever the live unit uses (`ReleasePorts.DeployPortExactly`), and if
  the operation fails after it has switched nginx, nginx stays on a dead port unless another started unit uses that
  port (`ReleaseServing.FailedDeployServesExactly`, `RollbackServesExactly`; `EveryStepServesExactly` for the steps
  before the end). `ReleaseScenarios` has a run for each: `SamePortStarts` for the port of the live unit,
  `DowntimeHappens` for a deploy and `RollbackDowntimeHappens` for a rollback that leave nginx on a dead port.
  `ReleaseServing.ZeroDowntime` therefore asks that every operation start while that record is Completed,
  and nothing of the writes in between.
- When the first release of an application has a Node handoff and nginx cannot be switched to it, the error
  branch deletes the release but leaves `current`. `ReleaseOutcomes.AbortedDeployDangles` and
  `StrandingDangles` say exactly when, `StrandingHappens` that every first such deploy can.
- A deploy that follows a rollback can give the two newest Completed releases one port
  (`ReleaseScenarios.SharedPortHappens`); `ReleasePorts.NewestTwoShareAPort` says exactly when. Without such a
  deploy a rollback's target is on another port than the live release if and only if the deploy of the newer of the
  two found, when it began, a live release on the primary port just when the older one is on it
  (`ReleasePorts.RollbackTargetPort`). A single demotion breaks this: `ReleaseScenarios.SharedTargetPortHappens` has
  three deploys, no rollback, and the target on the live port.
- A cancellation noticed between the commands of a workflow stage, or an environment that cannot be resolved
  there, leaves that stage's phase running in the record for ever, and inside `post_deploy` the record ends as
  Failed or FailedRolledBack although the deploy was cancelled. `ReleasePhases.FailedRecordIsKept` gives the final status
  and phases of every failed deploy, `ReleaseScenarios.CancelledInPostDeploy` such a run.
- A pipeline execution can be marked Succeeded before any of its steps ran
  (`Journals.SucceededWithoutSteps`); only the order of steps is guarded.

## Assumptions

- One application. The application lock serialises deploys and rollbacks; cancellations need no lock and may
  come at any time, any number at once.
- New deployment ids are unused, as their time stamp and process id make them.
- Reading and writing the stored state, restoring `current`, and in recovery resetting nginx and stopping a unit
  succeed. Every other external call may fail.
- The workflow, processes and retention that a deploy reads from its manifest are one parameter of the deploy
  (`Config`), of which only the numbers of commands matter.

## Model

| member | source | states |
|---|---|---|
| `ReleaseInvariant.RunKeepsInv` | crates/lumic-platform/src/application.rs:1045-1486 | Along every run the deployment list is sound (unique ids, the running deploy's record last, others only overwritten by cancellations) and directories, `current`, units and upstream have their closed form |
| `ReleaseInvariant.StepKeepsInv` | crates/lumic-platform/src/application.rs:921-948 | The closed form survives every single step, cancellation steps of other processes included |
| `ReleaseHistory.HistoryDistinct` | crates/lumic-platform/src/application.rs:2405-2418 | Completed records at different places name different releases |
| `ReleaseHistory.LiveNodeIs` | crates/lumic-platform/src/application.rs:1069-1082 | The backwards search for the previous Node release finds the one Completed record of the live release, and rollback's search the same |
| `ReleaseHistory.TargetFrom` | crates/lumic-platform/src/application.rs:1397-1411 | An eligible release with no eligible newer one is what rollback chooses |
| `ReleaseHistory.TargetAt` | crates/lumic-platform/src/application.rs:1397-1411 | What rollback chooses is Completed, on disk, not live, and no newer record is all three |
| `ReleaseHistory.HistoryOfDemotion` | crates/lumic-platform/src/application.rs:937-940 | A record overwritten with a status other than Completed leaves the Completed records, and no other does |
| `ReleaseSafety.NeverDangles` | crates/lumic-platform/src/application.rs:1045-1486 | In every run that does not strand a first Node release, whatever cancellations write and when, `current` is absent or names an existing directory, at every step |
| `ReleaseSafety.FailureEnds` | crates/lumic-platform/src/application.rs:1229-1336 | Both failure branches restore directories and units; `current` and the upstream are given exactly |
| `ReleaseSafety.RollbackEnds` | crates/lumic-platform/src/application.rs:1412-1456 | However a rollback ends, directories are unchanged and `current` is the old release or the target, an existing Completed one |
| `ReleaseSafety.PruneEndsDeploy` | crates/lumic-platform/src/application.rs:2496-2519 | A completed deploy ends with its release live and on disk, whatever became of its record |
| `ReleaseCompletions.HistoryOfRuns` | crates/lumic-platform/src/application.rs:1169-1177 | Between the operations of any run the Completed records are exactly the deploys that completed, in order, but for those a cancellation overwrote after the deploy's last write; and every release on disk is one that completed |
| `ReleaseCompletions.RunKeepsAccount` | crates/lumic-platform/src/application.rs:2405-2418 | The same account holds at every step, a running deploy's own record aside, and from every accounted state on |
| `ReleaseCompletions.RecordIsKept` | crates/lumic-platform/src/application.rs:2405-2418 | After its deploy's last write a record stays as it is along every run until a cancellation overwrites it |
| `ReleaseOutcomes.SafeExactly` | crates/lumic-platform/src/application.rs:921-948 | Between operations `current` is absent or names an existing directory of a Completed deployment if and only if it does not dangle and its record was not overwritten after its deploy's last write |
| `ReleaseOutcomes.LiveReleaseIsSafe` | crates/lumic-platform/src/application.rs:1045-1486 | Without Node handoff, after any sequence of deploys, rollbacks, prunes and cancellations, `current` is absent or names an existing directory; between operations a Completed deployment recorded it, if and only if its record was not overwritten after its deploy's last write |
| `ReleaseOutcomes.LateWriteLosesRelease` | crates/lumic-platform/src/application.rs:927-939 | In any state a cancellation's write takes exactly its own release from those that Completed deployments recorded, and loses safety if and only if that is the live one |
| `ReleaseOutcomes.LateWriteHappens` | crates/lumic-platform/src/application.rs:927-939 | For every deploy without handoff there is a run that ends with such a write |
| `ReleaseOutcomes.AbortedDeployDangles` | crates/lumic-platform/src/application.rs:1304-1336 | A failed preparation leaves `current` dangling if and only if it had activated a release while none was live before |
| `ReleaseOutcomes.StrandingDangles` | crates/lumic-platform/src/application.rs:1304-1336 | Every first Node release that nginx refuses ends with `current` naming a deleted directory, whatever happens in between |
| `ReleaseOutcomes.StrandingHappens` | crates/lumic-platform/src/application.rs:1831-1850 | Every first deploy with a valid handoff can reach that refusal |
| `ReleaseOutcomes.FailedDeployIsNoOp` | crates/lumic-platform/src/application.rs:1229-1376 | With a live release before, a failed or cancelled deploy leaves `current`, directories and units as they were, and the upstream if it pointed at the live release |
| `ReleaseOutcomes.OwnRecordAtEnd` | crates/lumic-platform/src/application.rs:1253-1266 | The status and phases a deploy's last write stores: Completed; Cancelled by the last check or by a marker seen by an abort; else FailedRolledBack if a release was restored and Failed if not |
| `ReleaseOutcomes.DeployIsAllOrNothing` | crates/lumic-platform/src/application.rs:1045-1376 | A whole deploy, with any cancellations in between, ends live and on disk, or without its directory and with `current`, directories, units and upstream unchanged; the Completed records are those before, and its own if it completed, but for overwritten ones |
| `ReleaseCancellation.CancellationIsNeverLost` | crates/lumic-platform/src/application.rs:1856-1871 | A deploy whose marker exists while a check lies ahead never ends Completed, though its own writes may overwrite the Cancelling status |
| `ReleaseCancellation.MarkedTooLateCompletes` | crates/lumic-platform/src/application.rs:1139-1167 | And only then: with no check ahead the deploy completes, marked or not, if its remaining calls succeed |
| `ReleaseServing.ZeroDowntime` | crates/lumic-platform/src/application.rs:1188-1258 | With Node handoff throughout, from a serving release on, and with every operation started while the live release's record is Completed: at every step of every deploy and rollback nginx points at a started unit; between operations at the live release's, on the port recorded for it |
| `ReleaseServing.EveryStateServes` | crates/lumic-platform/src/application.rs:1794-1851 | Every intermediate state of an operation that found the live release serving has the upstream on a started unit |
| `ReleaseServing.CompletedDeployServes` | crates/lumic-platform/src/application.rs:1188-1230 | Every deploy with a handoff that completes ends with its own unit serving, however it began |
| `ReleaseServing.FailedDeployServesExactly` | crates/lumic-platform/src/application.rs:1241-1252 | A failed deploy of a served application leaves nginx on a dead port if and only if it had found no live record, failed after the switch, and no unit from before runs on the primary port |
| `ReleaseServing.RollbackServesExactly` | crates/lumic-platform/src/application.rs:1412-1456 | A whole rollback of a served application, with any cancellations in between, leaves nginx on a dead port if and only if its health check after the switch failed, the live release's record was not Completed when it began, and no other unit than the target's ran on the target's port |
| `ReleaseServing.EveryStepServesExactly` | crates/lumic-platform/src/application.rs:1241-1260 | Whatever record the operation found: while it runs nginx points at a started unit, but for a deploy that found no live record, from the moment its failure stopped its own unit, when no unit from before runs on the primary port |
| `ReleaseServing.RunKeepsMatched` | crates/lumic-platform/src/application.rs:1794-1851 | In every reachable state the started units of Completed releases run on the ports recorded for them |
| `ReleaseServing.WriteHidesLiveRecord` | crates/lumic-platform/src/application.rs:927-939 | A cancellation's write makes the live Node release unknown to the next operation if and only if it is that release's record it writes |
| `ReleaseServing.LiveRecordKnown` | crates/lumic-platform/src/application.rs:1069-1082 | Between the operations of any run of a Node application the next operation finds the live release if and only if its record was not overwritten after its deploy's last write |
| `ReleaseRetention.ExpiredExactly` | crates/lumic-platform/src/application.rs:2496-2519 | Pruning deletes exactly the Completed releases older than the newest `release_retention`, but never the live one |
| `ReleaseRetention.PruningBound` | crates/lumic-platform/src/application.rs:2496-2519 | At most retention + 1 Completed releases stay on disk |
| `ReleaseRetention.RunKeepsDisk` | crates/lumic-platform/src/application.rs:2496-2519 | In every reachable state a Completed release is on disk only if all newer Completed ones are |
| `ReleaseRetention.PruningKeepsRollbackTarget` | crates/lumic-platform/src/application.rs:1397-1411 | In every reachable state, with retention of at least 2, the prune after a deploy leaves the choice of an immediate rollback as it was |
| `ReleaseRetention.TargetOfNewest` | crates/lumic-platform/src/application.rs:1397-1411 | With the newest release live, rollback chooses the second newest if it is on disk and nothing otherwise |
| `ReleaseRetention.SuccessfulRollback` | crates/lumic-platform/src/application.rs:1457-1473 | The rollback that writes its record went to the target chosen when it began, and appends one record and nothing else: the new id, status RolledBack, the release, unit and port of the target, the release live before as its previous one, one completed phase |
| `ReleaseRetention.RollbackRecordStays` | crates/lumic-platform/src/application.rs:921-948 | The record of a rollback is never changed again, whatever is deployed, rolled back or cancelled afterwards |
| `ReleaseRetention.RollbackGoesTo` | crates/lumic-platform/src/application.rs:1397-1411 | Rollback chooses the newest existing release, or the second newest if the newest is live |
| `ReleaseRetention.RollbacksAlternate` | crates/lumic-platform/src/application.rs:1457-1473 | Along every run without deploys whose rollbacks succeed, with any cancellations in between that spare the two newest records, the rollbacks alternate for ever between the two newest existing releases; two of them restore the newest |
| `ReleasePorts.DeployStartsOnOtherPort` | crates/lumic-platform/src/application.rs:1801-1818 | In every reachable state, after rollbacks too, a deploy starts its unit on another port than the one recorded for the live release |
| `ReleasePorts.DeployPortExactly` | crates/lumic-platform/src/application.rs:1801-1805 | The new unit's port differs from the live unit's if and only if the deploy found the live record or the live unit is not on the primary port |
| `ReleasePorts.RollbackTargetPort` | crates/lumic-platform/src/application.rs:1397-1411 | With one handoff and no deploy after a rollback: the live release and a rollback's target are completions with only demoted ones between them, and their ports differ if and only if the newer one's deploy found a live release on the primary port just when the older one is on the primary port |
| `ReleasePorts.RollbackTargetHasOtherPort` | crates/lumic-core/src/application.rs:103-118 | With one handoff, no deploy after a rollback and no completed record overwritten, every rollback target has another port than the live release |
| `ReleasePorts.NewestTwoShareAPort` | crates/lumic-platform/src/application.rs:1801-1805 | When a deploy ends Completed, the two newest Completed releases have one port if and only if the release before it is on the secondary port just when the deploy had found a live release on the primary |
| `ReleaseProgress.OperationsEnd` | crates/lumic-platform/src/application.rs:1045-1486 | Every operation takes at most an explicitly given number of steps, however cancellations interleave |
| `ReleaseProgress.UndisturbedDeployCompletes` | crates/lumic-platform/src/application.rs:1169-1230 | From every point of its main line an unmarked deploy whose calls succeed ends Completed and live, with its unit on the chosen port, the previous one stopped, and no other record changed |
| `ReleasePhases.RunKeepsLog` | crates/lumic-platform/src/application.rs:1553-1850 | At every step of every deploy of every run the phases recorded are those of the steps passed, in order, with one running exactly inside a stage |
| `ReleasePhases.CompletedRecordPhases` | crates/lumic-platform/src/application.rs:1188-1229 | A completed deploy's stored record in full: healthy, with the release live before, the chosen port and unit, its workflow's phases in order and then the draining, none left running; `pre_deploy`, `build`, `migrate` and `post_deploy` are skipped if and only if there is nothing to run for them |
| `ReleasePhases.OpenPhaseStaysOpen` | crates/lumic-platform/src/application.rs:1873-1925 | A failing deploy carries a running phase to its end if and only if it was stopped between the commands of a workflow stage |
| `ReleasePhases.FailedRecordIsKept` | crates/lumic-platform/src/application.rs:1260-1266 | The record of every failed deploy, on both branches, in full: status, phases, unit and whether a release was restored, all told by the step that failed, with a phase running if and only if the deploy was stopped between the commands of a stage; it is kept until a cancellation overwrites it |
| `ReleasePhases.AbortedRecordPhases` | crates/lumic-platform/src/application.rs:1345-1352 | The final record of an aborted deploy has its phases and one failure, and is left with a running phase exactly when they were |
| `ReleasePhases.FinishedStage` | crates/lumic-platform/src/application.rs:2812-2827 | Finishing a stage's phase closes that phase and changes no other |
| `ReleaseRecords.RecordIsShown` | crates/lumic-platform/src/application.rs:1488-1854 | At every step of every deploy the stored record is the deploy's own, or Cancelling; at the few steps that add to it before storing it, exactly what is missing is told |
| `ReleaseRecords.FailureIsStored` | crates/lumic-platform/src/application.rs:1856-1925 | A cancellation or failure in a workflow stage is stored, with its status and phases, before the deploy undoes anything |
| `ReleaseRecords.DrainingIsTold` | crates/lumic-platform/src/application.rs:1188-1227 | In every run, once a deploy has drained its last phase is Completed if the previous unit was stopped, and otherwise every unit still runs |
| `ReleaseRecords.CancelledIsMarked` | crates/lumic-platform/src/application.rs:921-948 | In every run a record is Cancelling or Cancelled only if its marker was written |
| `ReleasePaths.DeployFollowsPath` | crates/lumic-platform/src/application.rs:1045-1379 | Every deploy takes, one by one until it fails, the steps of a path written out from its configuration: the checks, the commands of each stage, the handoff, the processes; the deploy that prunes has taken all of them |
| `ReleasePaths.CommandsRunExactly` | crates/lumic-platform/src/application.rs:1696-1766 | Past a workflow stage exactly its commands have run and succeeded: as many as `pre_deploy` and `post_deploy` have, one for a build command, one for a migration; before it none |
| `ReleasePaths.RollbackFollowsPath` | crates/lumic-platform/src/application.rs:1412-1459 | Every rollback takes the steps of its path, that of a Node target or of another, until it fails |
| `ReleasePaths.RollbackGivesUp` | crates/lumic-platform/src/application.rs:1412-1456 | A rollback that cannot start or link its target, or stop the live unit, leaves exactly the stated link, upstream and units; after a failed link the target's unit keeps running |
| `ReleasePaths.RollbackRecovers` | crates/lumic-platform/src/application.rs:1414-1446 | A rollback that fails a check ends with the target's unit stopped and the live release linked again; nginx is set back only after the last check and only to a live release that was found |
| `ReleaseScenarios.SharedPortHappens` | crates/lumic-platform/src/application.rs:1801-1805 | Deploy, deploy, rollback, deploy with one handoff ends with the two newest Completed releases on one port |
| `ReleaseScenarios.SharedTargetPortHappens` | crates/lumic-platform/src/application.rs:1069-1082 | Deploy a, deploy b, a late cancellation's write of b's record, deploy c: the target of a rollback is a, on the port of the live c |
| `ReleaseScenarios.SamePortStarts` | crates/lumic-platform/src/application.rs:1801-1818 | Deploy a, a late cancellation's write of its record, deploy b: the unit of b is started on the port of the unit of a, which is live and runs |
| `ReleaseScenarios.DowntimeHappens` | crates/lumic-platform/src/application.rs:1241-1252 | A run of deploys with one handoff, a late cancellation of the live release and a failed health check ends with nginx on a dead port |
| `ReleaseScenarios.RollbackDowntimeHappens` | crates/lumic-platform/src/application.rs:1430-1444 | Deploy a, deploy b, a late cancellation's write of b's record, a rollback that fails its check after the switch: b is live and runs, nginx points at the port of a, where nothing runs |
| `ReleaseScenarios.CancelledInPostDeploy` | crates/lumic-platform/src/application.rs:1148-1153 | A first deploy cancelled between its `post_deploy` commands ends as Failed, its marker present, with that phase running |
| `ReleaseService.Service.DeployRevision` | crates/lumic-platform/src/application.rs:1045-1379 | The procedure takes the machine's steps one by one; it returns success with the new release live and on disk, or restores directories and units, and `current` if a release was live |
| `ReleaseService.Service.RollbackRelease` | crates/lumic-platform/src/application.rs:1381-1486 | The procedure takes the machine's steps; it refuses exactly when there is no target; success means the target is live and the record returned, which is the one stored, has its release, unit and port and names the release live before as previous |
| `ReleaseService.Service.PrepareRelease` | crates/lumic-platform/src/application.rs:1488-1854 | Follows the machine from the fetch to the health check, or to the failure it returns |
| `ReleaseService.Service.ValidateRelease` | crates/lumic-platform/src/application.rs:1120-1167 | Follows the machine from the health check to completion, or names the phase that failed |
| `ReleaseService.Service.RunWorkflowCommands` | crates/lumic-platform/src/application.rs:1873-1925 | Runs the list of commands it is given, looks at the marker before each, and closes the phase after the last or the failing one |
| `ReleaseService.Service.EnsureNotCancelled` | crates/lumic-platform/src/application.rs:1856-1871 | An error exactly when the marker exists, with the record set to Cancelled |
| `ReleaseService.Service.PruneReleases` | crates/lumic-platform/src/application.rs:2496-2519 | The loop deletes exactly the expired releases |
| `ReleaseService.Service.StoreRecord` | crates/lumic-platform/src/application.rs:2405-2418 | Replaces the first record of that id, or appends |
| `ReleaseService.Service.CancelRead` | crates/lumic-platform/src/application.rs:927-933 | Reading the record for a cancellation, refused unless the deployment is active |
| `ReleaseService.Service.CancelMark` | crates/lumic-platform/src/application.rs:934-936 | Writing the marker |
| `ReleaseService.Service.CancelWrite` | crates/lumic-platform/src/application.rs:937-940 | Writing the record back as it was read, with status Cancelling |
| `ReleaseService.Service.UndoRelease` | crates/lumic-platform/src/application.rs:1223-1301 | The validation-failure branch leaves directories and units as at the start, and `current` restored or removed |
| `ReleaseService.Service.AbortRelease` | crates/lumic-platform/src/application.rs:1304-1376 | The preparation-failure branch leaves directories and units as at the start, and `current` if a release was live |
| `ReleaseService.Service.FinishRelease` | crates/lumic-platform/src/application.rs:1169-1222 | The successful branch ends with the release live and on disk |
| `Bindings.RejectCycles` | crates/lumic-core/src/binding.rs:81-98 | Succeeds if and only if no resource reaches itself by one or more producer-to-consumer edges, in whatever order the keys are tried |
| `Bindings.Search.HasCycle` | crates/lumic-core/src/binding.rs:100-121 | Finds a cycle only if there is one; otherwise `visiting` is again the path and `visited` is closed under successors and free of cycles |
| `Bindings.Validate` | crates/lumic-core/src/binding.rs:43-59 | Passes exactly the valid graphs, and reports a cycle exactly when that is the only fault |
| `Bindings.ConsumersOf` | crates/lumic-core/src/binding.rs:61-67 | Exactly the consumers of the resource |
| `Bindings.DropKeepsValid` | crates/lumic-core/src/binding.rs:43-59 | Dropping the bindings that a removed resource consumes keeps the graph valid |
| `Bindings.TeardownExists` | crates/lumic-core/src/binding.rs:69-79 | Every valid graph has an order of all its resources, each after those that consume from it, in which each is removable in turn |
| `Pipelines.Validate` | crates/lumic-core/src/pipeline.rs:235-271 | Passes exactly the pipelines whose steps are sound and distinct and whose only commit is the last |
| `Pipelines.ValidStepsAreTame` | crates/lumic-core/src/pipeline.rs:95-271 | No step of a valid pipeline carries a relative path, a path with a control character, a name with a character that a shell or a unit file treats specially, or the plain value of a sensitive output |
| `Journals.PipelineExecution.Plan` | crates/lumic-core/src/pipeline.rs:320-343 | Succeeds exactly for valid pipelines and ids, with all steps pending |
| `Journals.PipelineExecution.TransitionTo` | crates/lumic-core/src/pipeline.rs:345-368 | Accepts exactly the six transitions of the design, with time not going backwards, and changes status and time alone; an error changes nothing |
| `Journals.PipelineExecution.Start` | crates/lumic-core/src/pipeline.rs:370-397 | Accepts exactly the pending step after a succeeded prefix of a running execution, and makes it running since now; an error changes nothing |
| `Journals.PipelineExecution.Finish` | crates/lumic-core/src/pipeline.rs:399-430 | Accepts exactly a running step that started no later than now; it succeeds if and only if that is reported, keeps its start, gets its finish and message, and no other entry changes; an error changes nothing |
| `Journals.PipelineExecution.Recovery` | crates/lumic-core/src/pipeline.rs:432-439 | Lists the succeeded steps, last first |
| `Journals.RunKeepsInv` | crates/lumic-core/src/pipeline.rs:345-430 | In every reachable execution: the pipeline's step ids, a succeeded prefix, then at most one running or failed step, then pending ones; each start at most its finish, at most the next start |
| `Journals.TimeIsMonotone` | crates/lumic-core/src/pipeline.rs:345-430 | The time of the last update never goes backwards |
| `Journals.RecoveryOfRuns` | crates/lumic-core/src/pipeline.rs:432-439 | In every reachable execution the recovery order is the reverse of exactly the succeeded prefix |
| `Journals.CommitStartsLast` | crates/lumic-core/src/pipeline.rs:370-397 | The commit step can be started only after all other steps succeeded |
| `Journals.RunLength` | crates/lumic-core/src/pipeline.rs:345-430 | A run over n steps has at most 4 + 2n successful mutations |
| `Journals.StatusTellsReports` | crates/lumic-core/src/pipeline.rs:370-430 | Over every run an entry is succeeded if and only if an accepted report said so, failed if and only if one said that, running if and only if started and not reported, and carries the message of its report |
| `Journals.MovesOfRuns` | crates/lumic-core/src/pipeline.rs:345-368 | The transitions of every run are a prefix of running and succeeded, or of running, failed, recovering and recovered or recovery failed |
| `Journals.SucceededWithoutSteps` | crates/lumic-core/src/pipeline.rs:345-368 | The status can become Succeeded with every step still pending |
| `Lifecycle.Validate` | crates/lumic-core/src/application_lifecycle.rs:66-95 | Passes exactly the valid specifications |
| `Lifecycle.CheckComponents` | crates/lumic-core/src/application_lifecycle.rs:480-491 | Passes exactly lists of supported, distinct components |
| `Lifecycle.CheckPackages` | crates/lumic-core/src/application_lifecycle.rs:493-503 | Passes exactly lists of trusted, distinct packages |
| `Lifecycle.CheckDatabases` | crates/lumic-core/src/application_lifecycle.rs:505-531 | Passes exactly lists of sound databases with distinct roles |
| `Lifecycle.CheckProcesses` | crates/lumic-core/src/application_lifecycle.rs:533-542 | Passes exactly lists of sound processes with distinct names |
| `Lifecycle.ProcessesStayOnLine` | crates/lumic-core/src/application_lifecycle.rs:533-542 | The commands, probes and environment of the processes of a valid specification print on one line of a unit file each and are read back as given |
| `Lifecycle.Plan` | crates/lumic-core/src/application_lifecycle.rs:101-124 | Fails only on an invalid specification or an update without a repository; the valid pipeline it returns has exactly the steps that the specification and the operation ask for, each with its id, action and parameters, in order of their families |
| `Lifecycle.PlanningIsTotal` | crates/lumic-core/src/application_lifecycle.rs:246-424 | For every valid specification and every operation the planned pipeline passes validation: step ids distinct across all families, commit last and unique |
| `Lifecycle.PlanFulfils` | crates/lumic-core/src/application_lifecycle.rs:272-424 | A step of an id and an action is planned if and only if it is asked for: a deploy for an update alone, TLS and its detachment with TLS, the health check when enabled, the root, packages, repository, runtime, components, databases, web host and processes, or their removal |
| `Lifecycle.PackagesAndComponentsInOrder` | crates/lumic-core/src/application_lifecycle.rs:276-321 | Packages follow the root, and components the runtime, in the order given |
| `Lifecycle.RemovalReversesReconciliation` | crates/lumic-core/src/application_lifecycle.rs:381-424 | Removal takes processes and databases in exactly the reverse of the order of reconciliation |
| `Packages.TrustedPackagesArePlain` | crates/lumic-core/src/package.rs:74-151 | No trusted package has a character that a step id cannot have, although package names may contain a plus sign |
| `UnitFiles.QuoteEscapes` | crates/lumic-platform/src/app_process.rs:377-385 | The three replacements in sequence are one escape per character |
| `UnitFiles.CommandRoundTrip` | crates/lumic-platform/src/app_process.rs:256-261 | Reading a rendered command gives back exactly the argument vector, whatever it contains |
| `UnitFiles.NodeCommandRoundTrip` | crates/lumic-platform/src/app_process.rs:222-234 | The same for a Node release unit, with only a leading `node` replaced |
| `UnitFiles.AssignmentRoundTrip` | crates/lumic-platform/src/app_process.rs:281-285 | An environment assignment is read back as its name and value |
| `UnitFiles.CommandStaysOnLine` | crates/lumic-platform/src/app_process.rs:256-261 | Arguments without line breaks render without line breaks |
| `UnitFiles.SystemdPathValue` | crates/lumic-platform/src/app_process.rs:387-404 | The loop's output reads back as the path, byte for byte |
| `UnitFiles.PathRoundTrip` | crates/lumic-platform/src/app_process.rs:387-404 | Every byte string survives escaping and reading |
| `UnitFiles.PlainPathsStay` | crates/lumic-platform/src/app_process.rs:387-404 | A path is printed as it is if and only if all its bytes are of the sixty-two letters and digits and nine signs that need no escape |
| `EnvironmentFiles.RenderEnvironmentFile` | crates/lumic-platform/src/application.rs:2710-2720 | The rendered file, read back, is the map that was rendered |
| `EnvironmentFiles.FileRoundTrip` | crates/lumic-platform/src/application.rs:2710-2720 | For every map of valid names, whatever the values contain and in whatever order it is listed |
| `Cron.AcceptedExactly` | crates/lumic-core/src/application_manifest.rs:978-1029 | Exactly the five-field expressions in range with at most one of day and weekday restricted are accepted |
| `Cron.CalendarOf` | crates/lumic-core/src/application_manifest.rs:978-1013 | The printed calendar reads back with each component admitting exactly what the cron field selects |
| `Cron.CronMeaningPreserved` | crates/lumic-core/src/application_manifest.rs:978-1029 | For every accepted expression and instant the printed calendar, read back, fires if and only if the second is 0 and cron matches |
| `Cron.WeekdayMeaning` | crates/lumic-core/src/application_manifest.rs:998-1012 | The printed day name is the weekday of the field, with 0 and 7 both Sunday |
| `Cron.FieldMeaning` | crates/lumic-core/src/application_manifest.rs:1015-1029 | A field compiles if and only if it is in range, and then reads back as its number |
| `Cron.FieldsAreWords` | crates/lumic-core/src/application_manifest.rs:978-985 | The fields of an expression are its words, whatever white space stands before, between and after them |
| `Cron.ParseRoundTrip` | crates/lumic-core/src/application_manifest.rs:1019-1024 | A printed number is read back, with or without a plus sign, if and only if it fits into eight bits |
| `Catalog.Validate` | crates/lumic-core/src/catalog.rs:250-263 | Passes exactly the schemas with sound, distinctly keyed fields |
| `Catalog.Resolve` | crates/lumic-core/src/catalog.rs:265-293 | Succeeds exactly when every field has a valid or no value as required; the result keeps every supplied value, and beside them holds exactly the defaults of the fields not supplied |
| `Catalog.ResolutionIsFixpoint` | crates/lumic-core/src/catalog.rs:265-293 | A resolved configuration resolves, to itself and to nothing else |
| `Catalog.ResolveTwice` | crates/lumic-core/src/catalog.rs:265-293 | Resolving the output of resolution succeeds and returns it unchanged |
| `Catalog.ApplyBehaviorIsMaximum` | crates/lumic-core/src/catalog.rs:295-303 | The action is the least upper bound of the actions of the fields that differ |
| `Catalog.ApplyBehaviorSymmetric` | crates/lumic-core/src/catalog.rs:295-303 | The action is the same in both directions |
| `Catalog.ApplyBehaviorTriangle` | crates/lumic-core/src/catalog.rs:295-303 | The action from a to c is at most the stronger of a to b and b to c |
| `Catalog.ApplyBehaviorZero` | crates/lumic-core/src/catalog.rs:295-303 | No action exactly when no changed field needs one; none for no change |
| `Catalog.StrongestNeeded` | crates/lumic-core/src/catalog.rs:56-62 | Recreate if a changed field needs it, else restart if one does, else reload if one does, else nothing |
| `Catalog.RedactionReveals` | crates/lumic-core/src/catalog.rs:305-325 | Redaction hides exactly the sensitive values and is idempotent |

## Left out

- ReleaseServing.ZeroDowntime: asks that operations start while the live record is Completed, since the property fails otherwise; the exact outcome of the others is in FailedDeployServesExactly and RollbackServesExactly.
- ReleaseServing.UpstreamServed: a unit counts as started from its start on; that its process could die or fail to bind a port another unit holds is not modelled.
- ReleaseService.Service.PruneReleases: the loop is modelled in the class; in the step machine a prune is one step, and cancellations do not touch directories.
- ReleaseRetention.RollbacksAlternate: excludes runs in which a cancellation overwrites one of the two newest records, after which that release is no longer a rollback target.
- UnitFiles.CommandRoundTrip: the reader covers quoting, one-character backslash escapes and `%%`; `$` substitution, numeric escapes and the special prefixes of executables are not read.
- EnvironmentFiles.FileRoundTrip: the reader covers double-quoted assignments, the only form the printer produces, and no comments or continuation lines.
- Cron.CronMeaningPreserved: instants are any combination of month, day, weekday, hour, minute and second in range, not only those of a calendar.
- Journals.PipelineExecution.Start: time stamps are unbounded where the source has 64 bits.
- Catalog.Resolve: floating-point numbers are real numbers, and whether a text is an IP address is a parameter of the schema.
- Commit metadata, messages, time stamps, health status, audit records, events and retries of deployments.
- `append_log`, `deployment_logs`, log redaction, `plan_deployment` and `redeploy`.
- nginx.rs and systemd.rs are not part of this model; of nginx and systemd only the upstream port and the set of started units are.
- The text of human-readable plans and the package requirements beside the pipeline.
- Rendering of configuration files and commands, service definitions and the catalogue's documents.
- `normalize`, `resolve` and `validate` of application manifests, apart from cron compilation; expanded worker names are not unique in the code.
- JSON, TOML and YAML parsing, secret storage, file locks, the command line and network interfaces.
- Concurrent configuration updates of the same application by other processes.
