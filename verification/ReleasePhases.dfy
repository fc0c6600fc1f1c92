/** What the phase list of a deployment says, and the one way in which a phase stays open for ever. */
module ReleasePhases {
  import opened Results
  import opened Releases
  import opened ReleaseInvariant
  import opened ReleaseHistory
  import opened ReleaseSafety
  import opened ReleaseCompletions
  import opened ReleaseProgress
  import opened ReleaseOutcomes

  // ----- the phases a deploy has recorded when it stands at a step of its main line -----

  function Passed(name: PhaseName): Phase {
    Phase(name, PhaseCompleted)
  }

  /** How a workflow stage is recorded once the deploy is past it. */
  function StageDone(config: Config, stage: Stage): Phase {
    match stage
    case PreDeploy => Workflow(PreDeployCommands, config.preDeploy == 0)
    case Build => Workflow(BuildCommands, config.build.NoBuild?)
    case Migrate => Workflow(Migration, !config.migrate)
    case PostDeploy => Workflow(PostDeployCommands, config.postDeploy == 0)
  }

  function Workflow(name: PhaseName, skipped: bool): Phase {
    Phase(name, if skipped then PhaseSkipped else PhaseCompleted)
  }

  /** How many commands of the stage the workflow of the application has. */
  function Configured(config: Config, stage: Stage): nat {
    match stage
    case PreDeploy => config.preDeploy
    case Build => if config.build.BuildCommand? then 1 else 0
    case Migrate => if config.migrate then 1 else 0
    case PostDeploy => config.postDeploy
  }

  function SourceLog(): seq<Phase> {
    [Passed(Source)]
  }

  function CheckoutLog(): seq<Phase> {
    SourceLog() + [Passed(CheckedOut)]
  }

  function ManifestLog(config: Config): seq<Phase> {
    if config.manifest then CheckoutLog() + [Passed(ManifestSync)] else CheckoutLog()
  }

  function BuildLog(config: Config): seq<Phase> {
    ManifestLog(config) + [StageDone(config, PreDeploy)]
  }

  function MigrateLog(config: Config): seq<Phase> {
    BuildLog(config) + [StageDone(config, Build)]
  }

  function EntryLog(config: Config): seq<Phase> {
    MigrateLog(config) + [StageDone(config, Migrate)]
  }

  function ReadyLog(config: Config): seq<Phase> {
    EntryLog(config) + [Passed(PreActivation)]
  }

  function StartedLog(config: Config): seq<Phase> {
    ReadyLog(config) + [Passed(NodeStart)]
  }

  function ProbedLog(config: Config): seq<Phase> {
    if config.handoff.Some? then StartedLog(config) + [Passed(NodeReadiness)] else ReadyLog(config)
  }

  function ActiveLog(config: Config): seq<Phase> {
    ProbedLog(config) + [Passed(Activation)]
  }

  function PublishedLog(config: Config): seq<Phase> {
    if config.handoff.Some? then ActiveLog(config) + [Passed(NodeHandoff)] else ActiveLog(config)
  }

  function HealthyLog(config: Config): seq<Phase> {
    PublishedLog(config) + [Passed(HealthCheck)]
  }

  function ValidatedLog(config: Config): seq<Phase> {
    HealthyLog(config) + [StageDone(config, PostDeploy)]
  }

  function BeforeStage(config: Config, stage: Stage): seq<Phase> {
    match stage
    case PreDeploy => ManifestLog(config)
    case Build => BuildLog(config)
    case Migrate => MigrateLog(config)
    case PostDeploy => HealthyLog(config)
  }

  function Open(config: Config, stage: Stage): seq<Phase> {
    BeforeStage(config, stage) + [Phase(StageDone(config, stage).name, PhaseRunning)]
  }

  function Log(config: Config, pc: Pc): seq<Phase>
    requires !pc.Undo? && !pc.Abort? && !pc.Drained? && !pc.Prune?
  {
    match pc
    case Fetch => []
    case Check(b) => (match b
      case AfterSource => SourceLog()
      case AfterPreDeploy => BuildLog(config)
      case AfterBuild => MigrateLog(config)
      case AfterMigrate => EntryLog(config)
      case AfterHealth => HealthyLog(config))
    case Resolve => SourceLog()
    case Clone => SourceLog()
    case Checkout => SourceLog()
    case Manifest => CheckoutLog()
    case Workspace => ManifestLog(config)
    case Enter(stage) => BeforeStage(config, stage)
    case Guard(stage, _) => Open(config, stage)
    case Execute(stage, _) => Open(config, stage)
    case Install => Open(config, Build)
    case Republish => MigrateLog(config)
    case EntryPoint => EntryLog(config)
    case StartUnit => ReadyLog(config)
    case Register => StartedLog(config)
    case Probe => StartedLog(config)
    case Activate => ProbedLog(config)
    case Switch => ActiveLog(config)
    case Publish => PublishedLog(config)
    case Health => PublishedLog(config)
    case Processes(_) => ValidatedLog(config)
    case Complete => ValidatedLog(config)
    case Drain => ValidatedLog(config)
  }

  /** What draining is recorded as: skipped unless a previous Node release handed over. */
  predicate DrainStatus(config: Config, node: Option<Deployment>, status: PhaseStatus) {
    if config.handoff.Some? && node.Some? && node.value.unit.Some? then status.PhaseCompleted? || status.PhaseFailed?
    else status.PhaseSkipped?
  }

  predicate OnMainLine(pc: Pc) {
    !pc.Undo? && !pc.Abort?
  }

  ghost predicate LoggedJob(job: Job)
    requires job.Deploying? && OnMainLine(job.pc)
  {
    var Deploying(_, config, d, node, pc) := job;
    && (pc.Guard? || pc.Execute? ==> 0 < pc.left <= Configured(config, pc.stage))
    && (pc.Install? ==> config.build.BuildDependencies?)
    && d.healthy == ReleaseInvariant.Done(pc) && !d.automaticRollback
    && d.status == (if ReleaseInvariant.Done(pc) then Completed else Started)
    && if pc.Drained? || pc.Prune? then
         exists status :: DrainStatus(config, node, status)
           && d.phases == ValidatedLog(config) + [Phase(Draining, status)]
       else d.phases == Log(config, pc)
  }

  ghost predicate Logged(s: State) {
    s.job.Deploying? && OnMainLine(s.job.pc) ==> LoggedJob(s.job)
  }

  // ----- every step keeps the list in step with the main line -----

  lemma FinishOpen(phases: seq<Phase>, name: PhaseName, status: PhaseStatus)
    ensures FinishPhase(phases + [Phase(name, PhaseRunning)], name, status) == phases + [Phase(name, status)]
  {
    var open := phases + [Phase(name, PhaseRunning)];
    assert open[..|open| - 1] == phases;
  }

  /** A stage that is passed or skipped adds its phase. */
  lemma NextLog(config: Config, stage: Stage)
    ensures Log(config, AfterStage(config, stage)) == BeforeStage(config, stage) + [StageDone(config, stage)]
  {
  }

  lemma CheckKeepsLog(s: State, ok: bool)
    requires s.job.Deploying? && (s.job.pc.Check? || s.job.pc.Republish? || s.job.pc.Guard?) && LoggedJob(s.job)
    ensures Logged(StageStep(s, ok))
  {
    hide Upsert, SourceLog, CheckoutLog, ManifestLog, BuildLog, MigrateLog, EntryLog, ReadyLog, StartedLog, ProbedLog,
      ActiveLog, PublishedLog, HealthyLog, ValidatedLog;
  }

  lemma EnterKeepsLog(s: State, ok: bool)
    requires s.job.Deploying? && s.job.pc.Enter? && LoggedJob(s.job)
    ensures Logged(StageStep(s, ok))
  {
    NextLog(s.job.config, s.job.pc.stage);
    hide Upsert, SourceLog, CheckoutLog, ManifestLog, BuildLog, MigrateLog, EntryLog, ReadyLog, StartedLog, ProbedLog,
      ActiveLog, PublishedLog, HealthyLog, ValidatedLog;
  }

  /** Closing the phase of the running stage. */
  lemma FinishedStage(config: Config, stage: Stage, d: Deployment, status: PhaseStatus)
    requires d.phases == Open(config, stage)
    ensures Finished(d, StageName(stage), status)
         == d.(phases := BeforeStage(config, stage) + [Phase(StageName(stage), status)])
  {
    hide BeforeStage, FinishPhase;
    FinishOpen(BeforeStage(config, stage), StageName(stage), status);
  }

  lemma ExecuteKeepsLog(s: State, ok: bool)
    requires s.job.Deploying? && s.job.pc.Execute? && LoggedJob(s.job)
    ensures Logged(StageStep(s, ok))
  {
    var stage := s.job.pc.stage;
    NextLog(s.job.config, stage);
    FinishedStage(s.job.config, stage, s.job.local, PhaseCompleted);
    hide Upsert, Finished, BeforeStage, StageName, SourceLog, CheckoutLog, ManifestLog, BuildLog, MigrateLog,
      EntryLog, ReadyLog, StartedLog, ProbedLog, ActiveLog, PublishedLog, HealthyLog, ValidatedLog;
  }

  lemma InstallKeepsLog(s: State, ok: bool)
    requires s.job.Deploying? && s.job.pc.Install? && LoggedJob(s.job)
    ensures Logged(StageStep(s, ok))
  {
    NextLog(s.job.config, Build);
    FinishedStage(s.job.config, Build, s.job.local, PhaseCompleted);
    hide Upsert, Finished, SourceLog, CheckoutLog, ManifestLog, BuildLog, MigrateLog, EntryLog, ReadyLog, StartedLog,
      ProbedLog, ActiveLog, PublishedLog, HealthyLog, ValidatedLog;
  }

  lemma StageStepKeepsLog(s: State, ok: bool)
    requires s.job.Deploying? && InStage(s.job.pc) && LoggedJob(s.job)
    ensures Logged(StageStep(s, ok))
  {
    hide Logged, LoggedJob, StageStep;
    if s.job.pc.Enter? {
      EnterKeepsLog(s, ok);
    } else if s.job.pc.Execute? {
      ExecuteKeepsLog(s, ok);
    } else if s.job.pc.Install? {
      InstallKeepsLog(s, ok);
    } else {
      CheckKeepsLog(s, ok);
    }
  }

  lemma PreparationKeepsLog(s: State, ok: bool)
    requires s.job.Deploying? && InMain(s.job.pc) && Rank(s.job.pc) < 13 && LoggedJob(s.job)
    requires s.job.pc.StartUnit? || s.job.pc.Probe? ==> s.job.config.handoff.Some?
    ensures Logged(MainStep(s, ok))
  {
    hide Upsert, ChoosePort, BuildLog, MigrateLog, EntryLog, ActiveLog, PublishedLog, HealthyLog, ValidatedLog;
  }

  lemma ActivationKeepsLog(s: State, ok: bool)
    requires s.job.Deploying? && InMain(s.job.pc) && 13 <= Rank(s.job.pc) < 21 && LoggedJob(s.job)
    requires s.job.pc.Switch? ==> s.job.config.handoff.Some?
    requires s.job.pc.Activate? ==> (s.job.local.port.Some? <==> s.job.config.handoff.Some?)
    ensures Logged(MainStep(s, ok))
  {
    hide Upsert, SourceLog, CheckoutLog, ManifestLog, BuildLog, MigrateLog, EntryLog, ReadyLog, StartedLog, ProbedLog;
  }

  lemma DrainKeepsLog(s: State, ok: bool)
    requires s.job.Deploying? && InMain(s.job.pc) && 21 <= Rank(s.job.pc) && LoggedJob(s.job)
    ensures Logged(MainStep(s, ok))
  {
    hide Upsert, Expired, ValidatedLog;
    if s.job.pc.Drain? {
      var t := MainStep(s, ok);
      var last := t.job.local.phases[|t.job.local.phases| - 1];
      assert DrainStatus(s.job.config, s.job.node, last.status);
    }
  }

  lemma MainStepKeepsLog(s: State, ok: bool)
    requires s.job.Deploying? && InMain(s.job.pc) && LoggedJob(s.job)
    requires s.job.pc.StartUnit? || s.job.pc.Probe? || s.job.pc.Switch? ==> s.job.config.handoff.Some?
    requires s.job.pc.Activate? ==> (s.job.local.port.Some? <==> s.job.config.handoff.Some?)
    ensures Logged(MainStep(s, ok))
  {
    hide Logged, LoggedJob, MainStep;
    if Rank(s.job.pc) < 13 {
      PreparationKeepsLog(s, ok);
    } else if Rank(s.job.pc) < 21 {
      ActivationKeepsLog(s, ok);
    } else {
      DrainKeepsLog(s, ok);
    }
  }

  lemma HandoffFacts(s: State)
    requires Shaped(s) && s.job.Deploying? && OnMainLine(s.job.pc)
    ensures s.job.pc.StartUnit? || s.job.pc.Probe? || s.job.pc.Switch? ==> s.job.config.handoff.Some?
    ensures s.job.pc.Activate? ==> (s.job.local.port.Some? <==> s.job.config.handoff.Some?)
  {
    hide PreviousNode, Activated, WithUnit;
  }

  lemma FailureStaysFailure(s: State, ok: bool)
    requires s.job.Deploying? && !OnMainLine(s.job.pc)
    ensures var t := DeployStep(s, ok); t.job.Idle? || (t.job.Deploying? && !OnMainLine(t.job.pc))
  {
    hide Upsert, MainStep, StageStep;
  }

  lemma StepKeepsLog(s: State, e: Event)
    requires Inv(s) && Logged(s)
    ensures Logged(Apply(s, e))
  {
    hide Listed, Shaped, LoggedJob, StageStep, MainStep, UndoStepOf, AbortStepOf, RollbackStep, CancelStep;
    match e
    case Outcome(ok) =>
      if s.job.Deploying? {
        if !OnMainLine(s.job.pc) {
          FailureStaysFailure(s, ok);
        } else if InStage(s.job.pc) {
          StageStepKeepsLog(s, ok);
        } else {
          HandoffFacts(s);
          MainStepKeepsLog(s, ok);
        }
      } else if s.job.RollingBack? {
        RollbackWrites(s, ok);
      }
    case Deploy(id, config) => NewDeployIsLogged(s, id, config);
    case Rollback(_) =>
    case _ => CancelEffect(s, e);
  }

  lemma NewDeployIsLogged(s: State, id: Id, config: Config)
    requires Logged(s)
    ensures Logged(Apply(s, Deploy(id, config)))
  {
    hide Upsert, Fresh, PreviousNode;
  }

  /** At every step of every deploy of every run, the phases recorded so far are those of the steps passed, in order. */
  lemma {:induction false} RunKeepsLog(s: State, events: seq<Event>)
    requires Inv(s) && Logged(s)
    ensures Logged(Run(s, events))
    decreases |events|
  {
    hide Inv, Logged, Apply;
    if events != [] {
      var front := events[..|events| - 1];
      RunKeepsLog(s, front);
      RunKeepsInv(s, front);
      StepKeepsLog(Run(s, front), events[|events| - 1]);
    }
  }

  // ----- open phases -----

  /** No phase is still running. */
  predicate Closed(phases: seq<Phase>) {
    forall i :: 0 <= i < |phases| ==> phases[i].status != PhaseRunning
  }

  lemma ClosedPush(phases: seq<Phase>, phase: Phase)
    ensures Closed(phases + [phase]) <==> Closed(phases) && phase.status != PhaseRunning
  {
    var all := phases + [phase];
    assert all[|phases|] == phase;
    assert forall i :: 0 <= i < |phases| ==> all[i] == phases[i];
  }

  lemma EarlyLogsAreClosed(config: Config)
    ensures Closed(SourceLog()) && Closed(CheckoutLog()) && Closed(ManifestLog(config)) && Closed(BuildLog(config))
    ensures Closed(MigrateLog(config)) && Closed(EntryLog(config)) && Closed(ReadyLog(config))
      && Closed(StartedLog(config))
  {
    hide Closed;
    assert Closed([]) && [] + [Passed(Source)] == SourceLog() by { EmptyIsClosed(); }
    ClosedPush([], Passed(Source));
    ClosedPush(SourceLog(), Passed(CheckedOut));
    ClosedPush(CheckoutLog(), Passed(ManifestSync));
    ClosedPush(ManifestLog(config), StageDone(config, PreDeploy));
    ClosedPush(BuildLog(config), StageDone(config, Build));
    ClosedPush(MigrateLog(config), StageDone(config, Migrate));
    ClosedPush(EntryLog(config), Passed(PreActivation));
    ClosedPush(ReadyLog(config), Passed(NodeStart));
  }

  lemma EmptyIsClosed()
    ensures Closed([])
  {
  }

  lemma LateLogsAreClosed(config: Config)
    ensures Closed(ProbedLog(config)) && Closed(ActiveLog(config)) && Closed(PublishedLog(config))
    ensures Closed(HealthyLog(config)) && Closed(ValidatedLog(config))
  {
    hide Closed, ReadyLog, StartedLog;
    EarlyLogsAreClosed(config);
    ClosedPush(StartedLog(config), Passed(NodeReadiness));
    ClosedPush(ProbedLog(config), Passed(Activation));
    ClosedPush(ActiveLog(config), Passed(NodeHandoff));
    ClosedPush(PublishedLog(config), Passed(HealthCheck));
    ClosedPush(HealthyLog(config), StageDone(config, PostDeploy));
  }

  /** On the main line a phase is open exactly while a workflow stage runs. */
  lemma MainLineIsClosed(config: Config, pc: Pc)
    requires OnMainLine(pc) && !pc.Drained? && !pc.Prune?
    ensures Closed(Log(config, pc)) <==> !(pc.Guard? || pc.Execute? || pc.Install?)
    ensures pc.Guard? || pc.Execute? ==> Closed(BeforeStage(config, pc.stage))
    ensures Closed(BuildLog(config))
  {
    EarlyLogsAreClosed(config);
    LateLogsAreClosed(config);
    EmptyIsClosed();
    if pc.Guard? || pc.Execute? {
      ClosedPush(BeforeStage(config, pc.stage), Phase(StageName(pc.stage), PhaseRunning));
    } else if pc.Install? {
      ClosedPush(BuildLog(config), Phase(BuildCommands, PhaseRunning));
    }
    hide Closed, SourceLog, CheckoutLog, ManifestLog, BuildLog, MigrateLog, EntryLog, ReadyLog, StartedLog, ProbedLog,
      ActiveLog, PublishedLog, HealthyLog, ValidatedLog;
  }

  /**
   A deploy that leaves its main line leaves a phase open exactly when it was stopped between the
   commands of a workflow stage: by a cancellation, or because the environment could not be resolved.
   */
  lemma StageFailureOpensPhase(s: State, ok: bool)
    requires s.job.Deploying? && InStage(s.job.pc) && LoggedJob(s.job)
    requires var t := StageStep(s, ok); t.job.Deploying? && !OnMainLine(t.job.pc)
    ensures Closed(StageStep(s, ok).job.local.phases) <==> !(s.job.pc.Guard? || s.job.pc.Enter?)
  {
    hide LoggedJob, Closed, StageStep;
    if s.job.pc.Enter? {
      EnterFailureOpensPhase(s, ok);
    } else if s.job.pc.Execute? {
      ExecuteFailureClosesPhase(s, ok);
    } else if s.job.pc.Install? {
      InstallFailureClosesPhase(s, ok);
    } else {
      CheckFailureKeepsPhases(s, ok);
    }
  }

  lemma CheckFailureKeepsPhases(s: State, ok: bool)
    requires s.job.Deploying? && (s.job.pc.Check? || s.job.pc.Republish? || s.job.pc.Guard?) && LoggedJob(s.job)
    requires var t := StageStep(s, ok); t.job.Deploying? && !OnMainLine(t.job.pc)
    ensures Closed(StageStep(s, ok).job.local.phases) <==> !s.job.pc.Guard?
  {
    MainLineIsClosed(s.job.config, s.job.pc);
    hide Closed, Upsert, Log;
    ClosedPush(s.job.local.phases, Phase(Cancellation, PhaseFailed));
    ClosedPush(s.job.local.phases, Phase(PostDeployCommands, PhaseFailed));
  }

  lemma EnterFailureOpensPhase(s: State, ok: bool)
    requires s.job.Deploying? && s.job.pc.Enter?
    requires var t := StageStep(s, ok); t.job.Deploying? && !OnMainLine(t.job.pc)
    ensures !Closed(StageStep(s, ok).job.local.phases)
  {
    hide Closed, Upsert;
    var running := Phase(StageName(s.job.pc.stage), PhaseRunning);
    ClosedPush(s.job.local.phases, running);
    ClosedPush(s.job.local.phases + [running], Phase(PostDeployCommands, PhaseFailed));
  }

  lemma ExecuteFailureClosesPhase(s: State, ok: bool)
    requires s.job.Deploying? && s.job.pc.Execute? && LoggedJob(s.job)
    requires var t := StageStep(s, ok); t.job.Deploying? && !OnMainLine(t.job.pc)
    ensures Closed(StageStep(s, ok).job.local.phases)
  {
    var stage := s.job.pc.stage;
    var before, failed := BeforeStage(s.job.config, stage), Phase(StageName(stage), PhaseFailed);
    MainLineIsClosed(s.job.config, s.job.pc);
    FinishedStage(s.job.config, stage, s.job.local, PhaseFailed);
    hide Closed, Upsert, Finished, BeforeStage, StageName, Log;
    ClosedPush(before, failed);
    ClosedPush(before + [failed], Phase(PostDeployCommands, PhaseFailed));
  }

  lemma InstallFailureClosesPhase(s: State, ok: bool)
    requires s.job.Deploying? && s.job.pc.Install? && LoggedJob(s.job)
    requires var t := StageStep(s, ok); t.job.Deploying? && !OnMainLine(t.job.pc)
    ensures Closed(StageStep(s, ok).job.local.phases)
  {
    MainLineIsClosed(s.job.config, s.job.pc);
    FinishedStage(s.job.config, Build, s.job.local, PhaseFailed);
    hide Closed, Upsert, Finished, BuildLog;
    ClosedPush(BuildLog(s.job.config), Phase(BuildCommands, PhaseFailed));
  }

  lemma MainFailureClosesPhases(s: State, ok: bool)
    requires s.job.Deploying? && InMain(s.job.pc) && LoggedJob(s.job)
    requires var t := MainStep(s, ok); t.job.Deploying? && !OnMainLine(t.job.pc)
    ensures Closed(MainStep(s, ok).job.local.phases)
  {
    var config, d, pc := s.job.config, s.job.local, s.job.pc;
    hide Closed, Upsert, ManifestLog, BuildLog, MigrateLog, HealthyLog, ChoosePort;
    assert !pc.Drained? && !pc.Prune?;
    MainLineIsClosed(config, pc);
    ClosedPush(d.phases, Phase(HealthCheck, PhaseFailed));
    ClosedPush(d.phases, Phase(ProcessUnits, PhaseFailed));
  }

  /** A failing deploy on the branch and with the phase list with which it began to fail. */
  ghost predicate FailsLike(s: State, u: State)
    requires s.job.Deploying? && !OnMainLine(s.job.pc)
  {
    && u.job.Deploying? && !OnMainLine(u.job.pc)
    && u.job.origin == s.job.origin && u.job.local.id == s.job.local.id && u.job.local.phases == s.job.local.phases
    && (OwnWriteAhead(u.job, u.job.local.id) ==> u.job.local == s.job.local)
    && (s.job.pc.Undo? <==> u.job.pc.Undo?)
    && (s.job.pc.Undo? ==> u.job.pc.phase == s.job.pc.phase)
  }

  lemma FailureStepFailsLike(s: State, ok: bool)
    requires s.job.Deploying? && !OnMainLine(s.job.pc)
    ensures DeployStep(s, ok).job.Idle? || FailsLike(s, DeployStep(s, ok))
    ensures OwnWriteAhead(DeployStep(s, ok).job, s.job.local.id) ==> OwnWriteAhead(s.job, s.job.local.id)
  {
    hide Upsert, MainStep, StageStep, Activated;
  }

  lemma {:induction false} FailureRunFailsLike(s: State, events: seq<Event>)
    requires s.job.Deploying? && !OnMainLine(s.job.pc) && Busy(s, events)
    ensures FailsLike(s, Run(s, events))
    decreases |events|
  {
    hide DeployStep, RollbackStep, CancelStep;
    if events != [] {
      var front, e := events[..|events| - 1], events[|events| - 1];
      FailureRunFailsLike(s, front);
      var u := Run(s, front);
      match e
      case Outcome(ok) => FailureStepFailsLike(u, ok);
      case Deploy(_, _) =>
      case Rollback(_) =>
      case _ => CancelEffect(u, e);
    }
  }

  /**
   A failing deploy carries an open phase to its end exactly when it left its main line between the
   commands of a workflow stage: cancelled there, or unable to resolve its environment.
   */
  lemma OpenPhaseStaysOpen(s: State, ok: bool, events: seq<Event>)
    requires Inv(s) && Logged(s) && s.job.Deploying? && OnMainLine(s.job.pc)
    requires var t := DeployStep(s, ok); t.job.Deploying? && !OnMainLine(t.job.pc) && Busy(t, events)
    ensures var u := Run(DeployStep(s, ok), events);
      && u.job.Deploying? && !OnMainLine(u.job.pc)
      && (Closed(u.job.local.phases) <==> !(s.job.pc.Guard? || s.job.pc.Enter?))
  {
    hide Inv, LoggedJob, Closed, StageStep, MainStep, UndoStepOf, AbortStepOf;
    FailureRunFailsLike(DeployStep(s, ok), events);
    if InStage(s.job.pc) {
      StageFailureOpensPhase(s, ok);
    } else {
      MainFailureClosesPhases(s, ok);
    }
  }

  // ----- what the record of a failed deploy keeps -----

  /** The phases recorded when a deploy leaves its main line here, before the failure itself is recorded. */
  function LeftLog(config: Config, pc: Pc): seq<Phase>
    requires OnMainLine(pc) && !pc.Drained? && !pc.Prune?
  {
    match pc
    case Enter(stage) => Open(config, stage)
    case Guard(stage, _) => Open(config, stage)
    case Execute(stage, _) => BeforeStage(config, stage) + [Phase(StageDone(config, stage).name, PhaseFailed)]
    case Install => BuildLog(config) + [Phase(BuildCommands, PhaseFailed)]
    case _ => Log(config, pc)
  }

  /** The phase that a failure here is recorded as. */
  function FailureName(pc: Pc): PhaseName
    requires OnMainLine(pc)
  {
    if Rank(pc) < 16 then WholeDeployment
    else
      match pc
      case Health => HealthCheck
      case Check(_) => Cancellation
      case Processes(_) => ProcessUnits
      case _ => PostDeployCommands
  }

  /** What a deploy carries from its main line, which it leaves with this step, into its failure branch. */
  ghost predicate Carried(s: State, d: Deployment)
    requires s.job.Deploying? && OnMainLine(s.job.pc) && !ReleaseInvariant.Done(s.job.pc)
  {
    var config, pc := s.job.config, s.job.pc;
    && d == s.job.local.(status := d.status, phases := d.phases)
    && d.status == (if pc.Check? || pc.Guard? then Cancelled else Started)
    && d.phases == LeftLog(config, pc) + (if Rank(pc) < 16 then [] else [Phase(FailureName(pc), PhaseFailed)])
  }

  lemma CheckCarries(s: State, ok: bool)
    requires s.job.Deploying? && (s.job.pc.Check? || s.job.pc.Guard? || s.job.pc.Republish?) && LoggedJob(s.job)
    requires var t := StageStep(s, ok); t.job.Deploying? && !OnMainLine(t.job.pc)
    ensures Carried(s, StageStep(s, ok).job.local)
  {
    hide Upsert, SourceLog, CheckoutLog, ManifestLog, BuildLog, MigrateLog, EntryLog, HealthyLog, BeforeStage;
  }

  lemma EnterCarries(s: State, ok: bool)
    requires s.job.Deploying? && s.job.pc.Enter? && LoggedJob(s.job)
    requires var t := StageStep(s, ok); t.job.Deploying? && !OnMainLine(t.job.pc)
    ensures Carried(s, StageStep(s, ok).job.local)
  {
    hide Upsert, BeforeStage;
  }

  lemma ExecuteCarries(s: State, ok: bool)
    requires s.job.Deploying? && s.job.pc.Execute? && LoggedJob(s.job)
    requires var t := StageStep(s, ok); t.job.Deploying? && !OnMainLine(t.job.pc)
    ensures Carried(s, StageStep(s, ok).job.local)
  {
    ExecuteLog(s);
    hide Upsert, Finished, LeftLog, LoggedJob, StageName;
  }

  lemma ExecuteLog(s: State)
    requires s.job.Deploying? && s.job.pc.Execute? && LoggedJob(s.job)
    ensures s.job.local.status == Started
    ensures Finished(s.job.local, StageName(s.job.pc.stage), PhaseFailed)
         == s.job.local.(phases := LeftLog(s.job.config, s.job.pc))
  {
    FinishedStage(s.job.config, s.job.pc.stage, s.job.local, PhaseFailed);
    hide BeforeStage, FinishPhase, Finished;
  }

  lemma InstallCarries(s: State, ok: bool)
    requires s.job.Deploying? && s.job.pc.Install? && LoggedJob(s.job)
    requires var t := StageStep(s, ok); t.job.Deploying? && !OnMainLine(t.job.pc)
    ensures Carried(s, StageStep(s, ok).job.local)
  {
    FinishedStage(s.job.config, Build, s.job.local, PhaseFailed);
    hide Upsert, Finished, BuildLog;
  }

  lemma StageCarries(s: State, ok: bool)
    requires s.job.Deploying? && InStage(s.job.pc) && LoggedJob(s.job)
    requires var t := StageStep(s, ok); t.job.Deploying? && !OnMainLine(t.job.pc)
    ensures Carried(s, StageStep(s, ok).job.local)
  {
    hide LoggedJob, Carried, StageStep;
    if s.job.pc.Enter? {
      EnterCarries(s, ok);
    } else if s.job.pc.Execute? {
      ExecuteCarries(s, ok);
    } else if s.job.pc.Install? {
      InstallCarries(s, ok);
    } else {
      CheckCarries(s, ok);
    }
  }

  lemma MainCarries(s: State, ok: bool)
    requires s.job.Deploying? && InMain(s.job.pc) && LoggedJob(s.job)
    requires var t := MainStep(s, ok); t.job.Deploying? && !OnMainLine(t.job.pc)
    ensures !ReleaseInvariant.Done(s.job.pc)
    ensures Carried(s, MainStep(s, ok).job.local)
  {
    hide Upsert, ChoosePort, Expired, SourceLog, CheckoutLog, ManifestLog, EntryLog, ReadyLog, StartedLog, ProbedLog,
      ActiveLog, PublishedLog, ValidatedLog;
  }

  lemma FailureCarries(s: State, ok: bool)
    requires s.job.Deploying? && Logged(s) && OnMainLine(s.job.pc)
    requires var t := DeployStep(s, ok); t.job.Deploying? && !OnMainLine(t.job.pc)
    ensures !ReleaseInvariant.Done(s.job.pc)
    ensures Carried(s, DeployStep(s, ok).job.local)
  {
    hide LoggedJob, Carried, StageStep, MainStep;
    if InStage(s.job.pc) { StageCarries(s, ok); } else { MainCarries(s, ok); }
  }

  /** Which branch a failure takes, and how the branch knows the failure. */
  lemma FailureBranch(s: State, ok: bool)
    requires Inv(s) && s.job.Deploying? && OnMainLine(s.job.pc)
    requires var t := DeployStep(s, ok); t.job.Deploying? && !OnMainLine(t.job.pc)
    ensures var t := DeployStep(s, ok);
      && (t.job.pc.Undo? <==> Rank(s.job.pc) >= 16)
      && (t.job.pc.Undo? ==> (t.job.pc.phase == Cancellation <==> s.job.pc.Check?))
      && (t.job.pc.Abort? ==> (Activated(t.job.local) <==> s.job.pc.Switch?))
      && t.job.origin == s.job.origin && t.job.local.id == s.job.local.id
  {
    hide Listed, DeployStep;
    BranchOf(s, ok);
    StepStays(s, ok);
    if !s.job.pc.Switch? || ok { AbortFromBeforeActivation(s, ok); }
  }

  lemma BranchOf(s: State, ok: bool)
    requires s.job.Deploying? && OnMainLine(s.job.pc)
    requires var t := DeployStep(s, ok); t.job.Deploying? && !OnMainLine(t.job.pc)
    ensures var t := DeployStep(s, ok);
      && (t.job.pc.Undo? <==> Rank(s.job.pc) >= 16)
      && (t.job.pc.Undo? ==> (t.job.pc.phase == Cancellation <==> s.job.pc.Check?))
      && (s.job.pc.Switch? ==> t.job.local == s.job.local && !ok)
  {
    hide Upsert, FinishPhase, Activated, Expired, ChoosePort;
  }

  /** The status a deploy ends with that leaves its main line here; `marked` is read when an abort writes its record. */
  function FailedStatus(s: State, marked: bool): Status
    requires s.job.Deploying? && OnMainLine(s.job.pc)
  {
    if Rank(s.job.pc) >= 16 then
      if s.job.pc.Check? then Cancelled else if Restorable(s.job.origin) then FailedRolledBack else Failed
    else if marked then Cancelled
    else if s.job.pc.Switch? && Restorable(s.job.origin) then FailedRolledBack
    else Failed
  }

  /** From this failing step to the last write of the record. */
  ghost predicate FailsFrom(s: State, ok: bool, events: seq<Event>, last: bool) {
    && Inv(s) && Logged(s) && s.job.Deploying? && OnMainLine(s.job.pc)
    && var t := DeployStep(s, ok);
    && t.job.Deploying? && !OnMainLine(t.job.pc) && Busy(t, events)
    && var u := Run(t, events);
    && u.job.Deploying? && OwnWriteAhead(u.job, s.job.local.id)
    && !OwnWriteAhead(DeployStep(u, last).job, s.job.local.id)
  }

  /**
   The record a failed deploy leaves, and keeps until a cancellation overwrites it: its status, phases and unit
   tell where the deploy failed, and it has a phase running if and only if the deploy was stopped between the
   commands of a workflow stage.  A cancellation seen there in `post_deploy` ends as a failure.
   */
  lemma FailedRecordIsKept(s: State, ok: bool, events: seq<Event>, last: bool, after: seq<Event>)
    requires FailsFrom(s, ok, events, last)
    requires s.job.local.id !in Demoted(DeployStep(Run(DeployStep(s, ok), events), last), after)
    ensures !ReleaseInvariant.Done(s.job.pc)
    ensures
      var Deploying(origin, config, d, _, pc) := s.job;
      var u := Run(DeployStep(s, ok), events);
      var phases := LeftLog(config, pc) + [Phase(FailureName(pc), PhaseFailed)];
      && Find(Run(DeployStep(u, last), after).world.deployments, d.id)
           == Some(Deployment(d.id, ReleaseDir(d.id), FailedStatus(s, d.id in u.world.markers), false, origin.current,
                phases, (Rank(pc) >= 16 || pc.Switch?) && Restorable(origin),
                StartedPort(s.job), if StartedPort(s.job).Some? then Some(WebUnit(d.id)) else None))
      && (Closed(phases) <==> !(pc.Guard? || pc.Enter?))
  {
    hide Inv, Logged, LoggedJob, Closed, DeployStep, Apply, Rank, Demoted, Activated, Find, Carried, LeftLog,
      FailureName, StartedPort;
    var t := DeployStep(s, ok);
    var u := Run(t, events);
    FailureCarries(s, ok);
    FailureBranch(s, ok);
    FailureRunFailsLike(t, events);
    OpenPhaseStaysOpen(s, ok, events);
    assert Apply(s, Outcome(ok)) == t by { StepOfOutcome(s, ok); }
    StepKeepsInv(s, Outcome(ok));
    RunKeepsInv(t, events);
    OwnRecordAtEnd(u, last);
    ClosedPush(u.job.local.phases, Phase(WholeDeployment, PhaseFailed));
    assert u.job.pc.Abort? ==> Activated(u.job.local) == Activated(t.job.local)
      by { SamePhases(u.job.local, t.job.local); }
    FailedRecord(s, u);
    StepKeepsInv(u, Outcome(last));
    assert Apply(u, Outcome(last)) == DeployStep(u, last) by { StepOfOutcome(u, last); }
    RecordIsKept(DeployStep(u, last), after, s.job.local.id);
  }

  /** The port of the unit a deploy has started at this step, if it has. */
  function StartedPort(job: Job): Option<Port>
    requires job.Deploying? && OnMainLine(job.pc)
  {
    if Rank(job.pc) >= 11 && job.config.handoff.Some? then
      var h := job.config.handoff.value;
      Some(if PortOf(PreviousNode(job.origin)) == Some(h.primary) then h.secondary else h.primary)
    else None
  }

  /** The last record of a failed deploy, from the step with which it left its main line. */
  lemma FailedRecord(s: State, u: State)
    requires Inv(s) && s.job.Deploying? && OnMainLine(s.job.pc) && !ReleaseInvariant.Done(s.job.pc) && Logged(s)
    requires u.job.Deploying? && !OnMainLine(u.job.pc) && Carried(s, u.job.local) && u.job.origin == s.job.origin
    requires u.job.pc.Undo? <==> Rank(s.job.pc) >= 16
    requires u.job.pc.Undo? ==> (u.job.pc.phase == Cancellation <==> s.job.pc.Check?)
    requires u.job.pc.Abort? ==> (Activated(u.job.local) <==> s.job.pc.Switch?)
    ensures
      var Deploying(origin, config, d, _, pc) := s.job;
      LastRecord(u) == Deployment(d.id, ReleaseDir(d.id), FailedStatus(s, d.id in u.world.markers), false,
        origin.current, LeftLog(config, pc) + [Phase(FailureName(pc), PhaseFailed)],
        (Rank(pc) >= 16 || pc.Switch?) && Restorable(origin),
        StartedPort(s.job), if StartedPort(s.job).Some? then Some(WebUnit(d.id)) else None)
  {
    OwnUnit(s);
    NotDone(s);
    hide Inv, Logged, LoggedJob, LeftLog, Activated, Restorable, StartedPort, PreviousNode, Rank;
  }

  lemma NotDone(s: State)
    requires Logged(s) && s.job.Deploying? && OnMainLine(s.job.pc) && !ReleaseInvariant.Done(s.job.pc)
    ensures !s.job.local.automaticRollback && !s.job.local.healthy
  {
    hide Log;
  }

  lemma OwnUnit(s: State)
    requires Inv(s) && s.job.Deploying? && OnMainLine(s.job.pc)
    ensures s.job.local.release == ReleaseDir(s.job.local.id) && s.job.local.previous == s.job.origin.current
    ensures s.job.local.port == StartedPort(s.job)
    ensures s.job.local.unit == if StartedPort(s.job).Some? then Some(WebUnit(s.job.local.id)) else None
  {
    hide Listed, PreviousNode, Fresh, Activated, WithUnit;
  }

  lemma SamePhases(d: Deployment, e: Deployment)
    requires d.phases == e.phases
    ensures Activated(d) <==> Activated(e)
  {
  }

  lemma StepOfOutcome(s: State, ok: bool)
    requires s.job.Deploying?
    ensures Apply(s, Outcome(ok)) == DeployStep(s, ok)
  {
    hide DeployStep;
  }

  // ----- the record of a completed deploy -----

  /** A step that writes the deploy's record leaves it stored. */
  lemma RecordIsStored(s: State, ok: bool, d: Deployment)
    requires Inv(s) && s.job.Deploying? && RecordWritten(s, ok) == Some(d)
    ensures Find(DeployStep(s, ok).world.deployments, s.job.local.id) == Some(d)
  {
    hide Progress, Undoing, Aborting, Related, RecordWritten, DeployStep;
    DeployWrites(s, ok);
    var ds, n := s.world.deployments, |s.job.origin.deployments|;
    OwnRecordWritten(s.job.origin.deployments, ds, s.job.local, ReleaseInvariant.Done(s.job.pc), d);
    IndexAt(Upsert(ds, d), n);
  }

  /** The record an aborted deploy ends with: an open phase of its list is open in it too. */
  lemma AbortedRecordPhases(s: State, ok: bool)
    requires Inv(s) && s.job.Deploying? && s.job.pc.Abort? && DeployStep(s, ok).job.Idle?
    ensures var stored := Find(DeployStep(s, ok).world.deployments, s.job.local.id);
      && stored.Some? && stored.value.phases == s.job.local.phases + [Phase(WholeDeployment, PhaseFailed)]
      && (Closed(stored.value.phases) <==> Closed(s.job.local.phases))
  {
    hide Inv, Closed;
    assert s.job.pc.abort.AbortRecord?;
    var d := RecordWritten(s, ok).value;
    assert d.phases == s.job.local.phases + [Phase(WholeDeployment, PhaseFailed)];
    hide DeployStep, RecordWritten;
    RecordIsStored(s, ok, d);
    ClosedPush(s.job.local.phases, Phase(WholeDeployment, PhaseFailed));
  }

  lemma SkippedPush(phases: seq<Phase>, phase: Phase)
    ensures forall name :: Phase(name, PhaseSkipped) in phases + [phase] <==>
                             Phase(name, PhaseSkipped) in phases || phase == Phase(name, PhaseSkipped)
  {
  }

  lemma SkippedEarly(config: Config)
    ensures var log := EntryLog(config);
      && (Phase(PreDeployCommands, PhaseSkipped) in log <==> config.preDeploy == 0)
      && (Phase(BuildCommands, PhaseSkipped) in log <==> config.build.NoBuild?)
      && (Phase(Migration, PhaseSkipped) in log <==> !config.migrate)
      && Phase(PostDeployCommands, PhaseSkipped) !in log
  {
    SkippedPush(ManifestLog(config), StageDone(config, PreDeploy));
    SkippedPush(BuildLog(config), StageDone(config, Build));
    SkippedPush(MigrateLog(config), StageDone(config, Migrate));
  }

  lemma NothingSkippedLate(config: Config)
    ensures forall name :: Phase(name, PhaseSkipped) in HealthyLog(config) <==>
                             Phase(name, PhaseSkipped) in EntryLog(config)
  {
    SkippedPush(EntryLog(config), Passed(PreActivation));
    SkippedPush(ReadyLog(config), Passed(NodeStart));
    SkippedPush(StartedLog(config), Passed(NodeReadiness));
    SkippedPush(ProbedLog(config), Passed(Activation));
    SkippedPush(ActiveLog(config), Passed(NodeHandoff));
    SkippedPush(PublishedLog(config), Passed(HealthCheck));
    hide EntryLog;
  }

  /** Whether a workflow stage is recorded as skipped depends on its commands alone. */
  lemma SkippedStages(config: Config)
    ensures var log := ValidatedLog(config);
      && (Phase(PreDeployCommands, PhaseSkipped) in log <==> config.preDeploy == 0)
      && (Phase(BuildCommands, PhaseSkipped) in log <==> config.build.NoBuild?)
      && (Phase(Migration, PhaseSkipped) in log <==> !config.migrate)
      && (Phase(PostDeployCommands, PhaseSkipped) in log <==> config.postDeploy == 0)
  {
    SkippedEarly(config);
    NothingSkippedLate(config);
    SkippedPush(HealthyLog(config), StageDone(config, PostDeploy));
    hide EntryLog, HealthyLog;
  }

  /**
   The record of every completed deploy of every run, as its last write stores it: completed and healthy, with
   the release that was live before, the port it started its unit on, and the phases of its workflow in order,
   each passed or skipped as its configuration says, then the draining; none is open.
   */
  lemma CompletedRecordPhases(events: seq<Event>, ok: bool)
    requires var s := Run(EMPTY, events); s.job.Deploying? && s.job.pc.Drained?
    ensures
      var s := Run(EMPTY, events);
      var Deploying(origin, config, d, node, _) := s.job;
      && Find(DeployStep(s, ok).world.deployments, d.id)
           == Some(Deployment(d.id, ReleaseDir(d.id), Completed, true, origin.current, d.phases, false,
                StartedPort(s.job), if StartedPort(s.job).Some? then Some(WebUnit(d.id)) else None))
      && Closed(d.phases) && node == PreviousNode(origin)
      && (exists status :: DrainStatus(config, node, status)
            && d.phases == ValidatedLog(config) + [Phase(Draining, status)])
      && (Phase(PreDeployCommands, PhaseSkipped) in d.phases <==> config.preDeploy == 0)
      && (Phase(BuildCommands, PhaseSkipped) in d.phases <==> config.build.NoBuild?)
      && (Phase(Migration, PhaseSkipped) in d.phases <==> !config.migrate)
      && (Phase(PostDeployCommands, PhaseSkipped) in d.phases <==> config.postDeploy == 0)
  {
    hide Inv, Closed, Apply, DeployStep, ValidatedLog, StartedPort, PreviousNode, Find;
    var s := Run(EMPTY, events);
    assert Inv(EMPTY) && Logged(EMPTY) by { EmptyIsAccounted(); }
    RunKeepsInv(EMPTY, events);
    RunKeepsLog(EMPTY, events);
    assert RecordWritten(s, ok) == Some(s.job.local);
    RecordIsStored(s, ok, s.job.local);
    OwnUnit(s);
    NodeFound(s);
    SkippedStages(s.job.config);
    var status :| DrainStatus(s.job.config, s.job.node, status)
      && s.job.local.phases == ValidatedLog(s.job.config) + [Phase(Draining, status)];
    LateLogsAreClosed(s.job.config);
    ClosedPush(ValidatedLog(s.job.config), Phase(Draining, status));
  }

  lemma NodeFound(s: State)
    requires Inv(s) && s.job.Deploying?
    ensures s.job.node == PreviousNode(s.job.origin)
  {
    hide Listed, PreviousNode, Progress, Undoing, Aborting;
  }
}
