/** Which steps operations take, in which order, written out from the configuration alone. */
module ReleasePaths {
  import opened Results
  import opened Releases
  import opened ReleaseInvariant
  import opened ReleaseHistory
  import opened ReleaseProgress
  import opened ReleaseOutcomes
  import opened ReleasePhases

  // ----- the main line of a deploy -----

  /** A cancellation check before each command. */
  function CommandSteps(stage: Stage, n: nat): seq<Pc> {
    if n == 0 then [] else [Guard(stage, n), Execute(stage, n)] + CommandSteps(stage, n - 1)
  }

  function StageSteps(stage: Stage, n: nat): seq<Pc> {
    [Enter(stage)] + CommandSteps(stage, n)
  }

  function BuildSteps(build: BuildKind): seq<Pc> {
    match build
    case BuildCommand => StageSteps(Build, 1)
    case BuildDependencies => [Enter(Build), Install]
    case NoBuild => [Enter(Build)]
  }

  function ActivationSteps(handoff: Option<Handoff>): seq<Pc> {
    if handoff.Some? then [StartUnit, Register, Probe, Activate, Switch] else [Activate]
  }

  function ProcessSteps(n: nat): seq<Pc> {
    [Processes(n)] + if n == 0 then [] else ProcessSteps(n - 1)
  }

  const LAST_STEPS := [Complete, Drain, Drained]

  function FromProcesses(config: Config): seq<Pc> {
    ProcessSteps(config.processes) + LAST_STEPS
  }

  function FromPostDeploy(config: Config): seq<Pc> {
    StageSteps(PostDeploy, config.postDeploy) + FromProcesses(config)
  }

  function FromPublish(config: Config): seq<Pc> {
    [Publish, Health, Check(AfterHealth)] + FromPostDeploy(config)
  }

  function FromActivation(config: Config): seq<Pc> {
    ActivationSteps(config.handoff) + FromPublish(config)
  }

  function FromMigrated(config: Config): seq<Pc> {
    [Check(AfterMigrate), EntryPoint] + FromActivation(config)
  }

  function FromMigrate(config: Config): seq<Pc> {
    StageSteps(Migrate, if config.migrate then 1 else 0) + FromMigrated(config)
  }

  function FromBuilt(config: Config): seq<Pc> {
    [Republish, Check(AfterBuild)] + FromMigrate(config)
  }

  function FromBuild(config: Config): seq<Pc> {
    BuildSteps(config.build) + FromBuilt(config)
  }

  function FromPrepared(config: Config): seq<Pc> {
    [Check(AfterPreDeploy)] + FromBuild(config)
  }

  function FromPreDeploy(config: Config): seq<Pc> {
    StageSteps(PreDeploy, config.preDeploy) + FromPrepared(config)
  }

  function BeforePrune(config: Config): seq<Pc> {
    [Fetch, Check(AfterSource), Resolve, Clone, Checkout, Manifest, Workspace] + FromPreDeploy(config)
  }

  /** All steps of a deploy in which nothing fails, in order. */
  function Path(config: Config): seq<Pc> {
    BeforePrune(config) + [Prune]
  }

  // ----- each step of the path leads to the next -----

  function AfterCommands(config: Config, stage: Stage): Pc {
    match stage
    case PreDeploy => Check(AfterPreDeploy)
    case Build => Republish
    case Migrate => Check(AfterMigrate)
    case PostDeploy => Processes(config.processes)
  }

  function NextCheck(boundary: Boundary): Pc {
    match boundary
    case AfterSource => Resolve
    case AfterPreDeploy => Enter(Build)
    case AfterBuild => Enter(Migrate)
    case AfterMigrate => EntryPoint
    case AfterHealth => Enter(PostDeploy)
  }

  function NextPc(config: Config, pc: Pc): Pc
    requires OnMainLine(pc)
  {
    match pc
    case Fetch => Check(AfterSource)
    case Check(boundary) => NextCheck(boundary)
    case Resolve => Clone
    case Clone => Checkout
    case Checkout => Manifest
    case Manifest => Workspace
    case Workspace => Enter(PreDeploy)
    case Enter(stage) =>
      if stage.Build? && config.build.BuildDependencies? then Install
      else if Configured(config, stage) > 0 then Guard(stage, Configured(config, stage))
      else AfterCommands(config, stage)
    case Guard(stage, left) => Execute(stage, left)
    case Execute(stage, left) => if left > 1 then Guard(stage, left - 1) else AfterCommands(config, stage)
    case Install => Republish
    case Republish => Check(AfterBuild)
    case EntryPoint => if config.handoff.Some? then StartUnit else Activate
    case StartUnit => Register
    case Register => Probe
    case Probe => Activate
    case Activate => if config.handoff.Some? then Switch else Publish
    case Switch => Publish
    case Publish => Health
    case Health => Check(AfterHealth)
    case Processes(left) => if left == 0 then Complete else Processes(left - 1)
    case Complete => Drain
    case Drain => Drained
    case Drained => Prune
    case Prune => Prune
  }

  predicate Goes(config: Config, steps: seq<Pc>, i: nat, to: Pc)
    requires i < |steps|
  {
    OnMainLine(steps[i]) && !steps[i].Prune? && NextPc(config, steps[i]) == if i + 1 < |steps| then steps[i + 1] else to
  }

  /** Going on from one step to the next leads along these steps, and then to `to`. */
  predicate Leads(config: Config, from: Pc, steps: seq<Pc>, to: Pc) {
    && from == (if steps == [] then to else steps[0])
    && forall i :: 0 <= i < |steps| ==> Goes(config, steps, i, to)
  }

  lemma LeadsOn(config: Config, a: Pc, first: seq<Pc>, b: Pc, second: seq<Pc>, c: Pc)
    requires Leads(config, a, first, b) && Leads(config, b, second, c)
    ensures Leads(config, a, first + second, c)
  {
    hide NextPc;
    var steps := first + second;
    forall i | 0 <= i < |steps|
      ensures Goes(config, steps, i, c)
    {
      if i < |first| {
        assert Goes(config, first, i, b);
      } else {
        assert Goes(config, second, i - |first|, c);
      }
    }
  }

  lemma TwoLead(config: Config, a: Pc, b: Pc, c: Pc)
    requires OnMainLine(a) && !a.Prune? && NextPc(config, a) == b
    requires OnMainLine(b) && !b.Prune? && NextPc(config, b) == c
    ensures Leads(config, a, [a, b], c)
  {
  }

  lemma OneLeads(config: Config, a: Pc, b: Pc)
    requires OnMainLine(a) && !a.Prune? && NextPc(config, a) == b
    ensures Leads(config, a, [a], b)
  {
  }

  lemma {:induction false} CommandsLead(config: Config, stage: Stage, n: nat)
    ensures Leads(config, if n > 0 then Guard(stage, n) else AfterCommands(config, stage), CommandSteps(stage, n),
      AfterCommands(config, stage))
  {
    if n > 0 {
      CommandsLead(config, stage, n - 1);
      var next := if n > 1 then Guard(stage, n - 1) else AfterCommands(config, stage);
      TwoLead(config, Guard(stage, n), Execute(stage, n), next);
      LeadsOn(config, Guard(stage, n), [Guard(stage, n), Execute(stage, n)], next, CommandSteps(stage, n - 1),
        AfterCommands(config, stage));
    }
  }

  lemma StageLeads(config: Config, stage: Stage)
    requires stage.Build? ==> !config.build.BuildDependencies?
    ensures Leads(config, Enter(stage), StageSteps(stage, Configured(config, stage)), AfterCommands(config, stage))
  {
    var n := Configured(config, stage);
    var first := if n > 0 then Guard(stage, n) else AfterCommands(config, stage);
    CommandsLead(config, stage, n);
    OneLeads(config, Enter(stage), first);
    LeadsOn(config, Enter(stage), [Enter(stage)], first, CommandSteps(stage, n), AfterCommands(config, stage));
  }

  lemma BuildLeads(config: Config)
    ensures Leads(config, Enter(Build), BuildSteps(config.build), Republish)
  {
    if config.build.BuildDependencies? {
      TwoLead(config, Enter(Build), Install, Republish);
    } else {
      StageLeads(config, Build);
      assert config.build.NoBuild? ==> CommandSteps(Build, 0) == [];
    }
  }

  lemma {:induction false} ProcessesLead(config: Config, n: nat)
    ensures Leads(config, Processes(n), ProcessSteps(n), Complete)
  {
    if n == 0 {
      assert ProcessSteps(0) == [Processes(0)];
    } else {
      ProcessesLead(config, n - 1);
      LeadsOn(config, Processes(n), [Processes(n)], Processes(n - 1), ProcessSteps(n - 1), Complete);
    }
  }

  lemma ActivationLeads(config: Config)
    ensures var start := if config.handoff.Some? then StartUnit else Activate;
      Leads(config, start, ActivationSteps(config.handoff), Publish)
  {
  }

  lemma LastLead(config: Config)
    ensures Leads(config, Complete, LAST_STEPS, Prune)
    ensures Leads(config, Publish, [Publish, Health, Check(AfterHealth)], Enter(PostDeploy))
  {
  }

  lemma BoundariesLead(config: Config)
    ensures Leads(config, Check(AfterPreDeploy), [Check(AfterPreDeploy)], Enter(Build))
    ensures Leads(config, Republish, [Republish, Check(AfterBuild)], Enter(Migrate))
    ensures Leads(config, Check(AfterMigrate), [Check(AfterMigrate), EntryPoint],
      if config.handoff.Some? then StartUnit else Activate)
  {
  }

  lemma SourceLeads(config: Config)
    ensures Leads(config, Fetch, [Fetch, Check(AfterSource), Resolve, Clone, Checkout, Manifest, Workspace],
      Enter(PreDeploy))
  {
  }

  lemma LateLead(config: Config)
    ensures Leads(config, Check(AfterMigrate), FromMigrated(config), Prune)
  {
    ProcessesLead(config, config.processes);
    StageLeads(config, PostDeploy);
    LastLead(config);
    ActivationLeads(config);
    BoundariesLead(config);
    hide Leads, ProcessSteps, StageSteps, ActivationSteps;
    LeadsOn(config, Processes(config.processes), ProcessSteps(config.processes), Complete, LAST_STEPS, Prune);
    LeadsOn(config, Enter(PostDeploy), StageSteps(PostDeploy, config.postDeploy), Processes(config.processes),
      FromProcesses(config), Prune);
    LeadsOn(config, Publish, [Publish, Health, Check(AfterHealth)], Enter(PostDeploy), FromPostDeploy(config), Prune);
    var start := if config.handoff.Some? then StartUnit else Activate;
    LeadsOn(config, start, ActivationSteps(config.handoff), Publish, FromPublish(config), Prune);
    LeadsOn(config, Check(AfterMigrate), [Check(AfterMigrate), EntryPoint], start, FromActivation(config), Prune);
  }

  lemma PathLeads(config: Config)
    ensures Leads(config, Fetch, BeforePrune(config), Prune)
  {
    LateLead(config);
    StageLeads(config, Migrate);
    BuildLeads(config);
    StageLeads(config, PreDeploy);
    BoundariesLead(config);
    SourceLeads(config);
    hide Leads, StageSteps, BuildSteps, FromMigrated;
    LeadsOn(config, Enter(Migrate), StageSteps(Migrate, if config.migrate then 1 else 0), Check(AfterMigrate),
      FromMigrated(config), Prune);
    LeadsOn(config, Republish, [Republish, Check(AfterBuild)], Enter(Migrate), FromMigrate(config), Prune);
    LeadsOn(config, Enter(Build), BuildSteps(config.build), Republish, FromBuilt(config), Prune);
    LeadsOn(config, Check(AfterPreDeploy), [Check(AfterPreDeploy)], Enter(Build), FromBuild(config), Prune);
    LeadsOn(config, Enter(PreDeploy), StageSteps(PreDeploy, config.preDeploy), Check(AfterPreDeploy),
      FromPrepared(config), Prune);
    LeadsOn(config, Fetch, [Fetch, Check(AfterSource), Resolve, Clone, Checkout, Manifest, Workspace],
      Enter(PreDeploy), FromPreDeploy(config), Prune);
  }

  // ----- each step of the machine is the next of the path -----

  lemma StageNext(s: State, ok: bool)
    requires s.job.Deploying? && InStage(s.job.pc) && LoggedJob(s.job)
    requires OnMainLine(StageStep(s, ok).job.pc)
    ensures StageStep(s, ok).job.pc == NextPc(s.job.config, s.job.pc)
  {
    hide Upsert, FinishPhase, Log;
  }

  lemma PreparationNext(s: State, ok: bool)
    requires s.job.Deploying? && InMain(s.job.pc) && Rank(s.job.pc) < 12
    requires OnMainLine(MainStep(s, ok).job.pc)
    ensures MainStep(s, ok).job.pc == NextPc(s.job.config, s.job.pc)
  {
    hide Upsert, ChoosePort, NextCheck;
  }

  lemma ActivationNext(s: State, ok: bool)
    requires s.job.Deploying? && InMain(s.job.pc) && 12 <= Rank(s.job.pc) < 23
    requires s.job.pc.Activate? ==> (s.job.local.port.Some? <==> s.job.config.handoff.Some?)
    requires OnMainLine(MainStep(s, ok).job.pc)
    ensures MainStep(s, ok).job.pc == NextPc(s.job.config, s.job.pc)
  {
    hide Upsert, NextCheck;
  }

  lemma StepNext(s: State, ok: bool)
    requires Inv(s) && Logged(s) && s.job.Deploying? && OnMainLine(s.job.pc) && !s.job.pc.Prune?
    requires DeployStep(s, ok).job.Deploying? && OnMainLine(DeployStep(s, ok).job.pc)
    ensures DeployStep(s, ok).job.pc == NextPc(s.job.config, s.job.pc)
  {
    hide Listed, Shaped, LoggedJob, NextPc, StageStep, MainStep;
    HandoffNow(s);
    if InStage(s.job.pc) {
      StageNext(s, ok);
    } else if Rank(s.job.pc) < 12 {
      PreparationNext(s, ok);
    } else {
      ActivationNext(s, ok);
    }
  }

  lemma HandoffNow(s: State)
    requires Inv(s) && s.job.Deploying? && OnMainLine(s.job.pc)
    ensures 10 <= Rank(s.job.pc) <= 12 || Rank(s.job.pc) == 14 ==> s.job.config.handoff.Some?
    ensures Rank(s.job.pc) == 13 ==> (s.job.local.port.Some? <==> s.job.config.handoff.Some?)
  {
    hide Listed, PreviousNode, Activated, WithUnit;
  }

  // ----- whole deploys -----

  /** A deploy on its main line stands at the step of its path that its steps so far lead to. */
  predicate OnPath(job: Job, k: nat)
    requires job.Deploying?
  {
    OnMainLine(job.pc) ==> k < |Path(job.config)| && Path(job.config)[k] == job.pc
  }

  lemma NextOnPath(s: State, ok: bool, k: nat)
    requires Inv(s) && Logged(s) && s.job.Deploying? && OnPath(s.job, k)
    requires DeployStep(s, ok).job.Deploying?
    ensures OnPath(DeployStep(s, ok).job, k + 1)
  {
    hide Inv, Logged, Path, DeployStep, NextPc;
    DeployJob(s, ok);
    if !OnMainLine(s.job.pc) {
      FailureStaysFailure(s, ok);
    } else if OnMainLine(DeployStep(s, ok).job.pc) {
      NotPruned(s, ok);
      StepNext(s, ok);
      NextOfPath(s.job.config, k);
    }
  }

  lemma NextOfPath(config: Config, k: nat)
    requires k < |Path(config)|
    ensures Path(config)[k] == Prune <==> k == |Path(config)| - 1
    ensures k < |Path(config)| - 1 ==>
      OnMainLine(Path(config)[k]) && Path(config)[k + 1] == NextPc(config, Path(config)[k])
  {
    PathLeads(config);
    if k < |BeforePrune(config)| { assert Goes(config, BeforePrune(config), k, Prune); }
    hide BeforePrune, NextPc;
  }

  lemma NotPruned(s: State, ok: bool)
    requires s.job.Deploying? && DeployStep(s, ok).job.Deploying?
    ensures !s.job.pc.Prune?
  {
    hide StageStep, UndoStepOf, AbortStepOf, Expired, Upsert;
  }

  lemma {:induction false} RunOnPath(s: State, events: seq<Event>)
    requires Inv(s) && Logged(s) && s.job.Deploying? && OnPath(s.job, 0) && Busy(s, events)
    ensures var t := Run(s, events);
      t.job.Deploying? && t.job.config == s.job.config && OnPath(t.job, Outcomes(events))
    decreases |events|
  {
    hide Inv, Logged, OnPath, DeployStep, RollbackStep, CancelStep;
    if events != [] {
      var front, e := events[..|events| - 1], events[|events| - 1];
      var t := Run(s, front);
      RunOnPath(s, front);
      RunKeepsInv(s, front);
      RunKeepsLog(s, front);
      match e
      case Outcome(ok) =>
        DeployJob(t, ok);
        NextOnPath(t, ok, Outcomes(front));
      case Deploy(_, _) =>
      case Rollback(_) =>
      case _ => CancelEffect(t, e);
    }
  }

  /**
   Every deploy takes the steps of its path one by one until it fails, whatever is cancelled in between; the
   deploy that prunes has taken all of them.
   */
  lemma DeployFollowsPath(s: State, id: Id, config: Config, events: seq<Event>)
    requires Inv(s) && s.job.Idle? && Fresh(s.world, id) && Busy(Apply(s, Deploy(id, config)), events)
    ensures var t, k, path := Run(Apply(s, Deploy(id, config)), events), Outcomes(events), Path(config);
      && t.job.Deploying? && t.job.local.id == id
      && (OnMainLine(t.job.pc) ==> k < |path| && path[k] == t.job.pc && (t.job.pc.Prune? <==> k == |path| - 1))
  {
    hide Inv, Fresh, Path, PreviousNode, Upsert;
    var start := Apply(s, Deploy(id, config));
    StepKeepsInv(s, Deploy(id, config));
    FetchIsFirst(config);
    LoggedStart(s, id, config);
    RunOnPath(start, events);
    BusyDeploy(start, events);
    if OnMainLine(Run(start, events).job.pc) { NextOfPath(config, Outcomes(events)); }
  }

  lemma FetchIsFirst(config: Config)
    ensures |Path(config)| > 0 && Path(config)[0] == Fetch
  {
    hide FromPreDeploy;
  }

  lemma LoggedStart(s: State, id: Id, config: Config)
    requires s.job.Idle?
    ensures Logged(Apply(s, Deploy(id, config)))
  {
    assert Logged(s);
    NewDeployIsLogged(s, id, config);
  }

  // ----- the commands of a workflow stage -----

  function CommandRun(s: State, e: Event, stage: Stage): nat {
    if s.job.Deploying? && s.job.pc.Execute? && s.job.pc.stage == stage && e == Outcome(true) then 1 else 0
  }

  /** How many commands of the stage succeeded in the run. */
  function CommandsRun(s: State, events: seq<Event>, stage: Stage): nat
    decreases |events|
  {
    if events == [] then 0
    else
      var front := events[..|events| - 1];
      CommandsRun(s, front, stage) + CommandRun(Run(s, front), events[|events| - 1], stage)
  }

  /** The deploy is past the stage. */
  predicate Beyond(pc: Pc, stage: Stage)
    requires OnMainLine(pc)
  {
    || Rank(pc) > StageRank(stage)
    || (Rank(pc) == StageRank(stage) && !pc.Enter? && !pc.Guard? && !pc.Execute?)
  }

  predicate Inside(pc: Pc, stage: Stage) {
    (pc.Guard? || pc.Execute?) && pc.stage == stage
  }

  /** On the main line: all commands of the stages before have run, of this one all but those left. */
  predicate Ran(job: Job, stage: Stage, n: nat)
    requires job.Deploying?
  {
    OnMainLine(job.pc) ==>
      n == if Inside(job.pc, stage) then Configured(job.config, stage) - job.pc.left
           else if Beyond(job.pc, stage) then Configured(job.config, stage)
           else 0
  }

  lemma CommandRuns(s: State, ok: bool, stage: Stage, n: nat)
    requires s.job.Deploying? && (s.job.pc.Guard? || s.job.pc.Execute?) && Ran(s.job, stage, n) && LoggedJob(s.job)
    ensures Ran(StageStep(s, ok).job, stage, n + CommandRun(s, Outcome(ok), stage))
  {
    hide Upsert, FinishPhase, Log;
  }

  lemma EnterRuns(s: State, ok: bool, stage: Stage, n: nat)
    requires s.job.Deploying? && s.job.pc.Enter? && Ran(s.job, stage, n)
    ensures Ran(StageStep(s, ok).job, stage, n + CommandRun(s, Outcome(ok), stage))
  {
    hide Upsert;
  }

  lemma BoundaryRuns(s: State, ok: bool, stage: Stage, n: nat)
    requires s.job.Deploying? && (s.job.pc.Check? || s.job.pc.Install? || s.job.pc.Republish?)
    requires Ran(s.job, stage, n) && LoggedJob(s.job)
    ensures Ran(StageStep(s, ok).job, stage, n + CommandRun(s, Outcome(ok), stage))
  {
    hide Upsert, FinishPhase, Log, Configured;
  }

  lemma MainRuns(s: State, ok: bool, stage: Stage, n: nat)
    requires s.job.Deploying? && InMain(s.job.pc) && Ran(s.job, stage, n) && MainStep(s, ok).job.Deploying?
    ensures Ran(MainStep(s, ok).job, stage, n + CommandRun(s, Outcome(ok), stage))
  {
    hide Upsert, ChoosePort, Expired;
  }

  lemma DeployRuns(s: State, ok: bool, stage: Stage, n: nat)
    requires s.job.Deploying? && Logged(s) && Ran(s.job, stage, n) && DeployStep(s, ok).job.Deploying?
    ensures Ran(DeployStep(s, ok).job, stage, n + CommandRun(s, Outcome(ok), stage))
  {
    hide LoggedJob, Ran, StageStep, MainStep, UndoStepOf, AbortStepOf;
    var pc := s.job.pc;
    if !OnMainLine(pc) {
      FailureStaysFailure(s, ok);
      NothingRan(DeployStep(s, ok).job, stage, n + CommandRun(s, Outcome(ok), stage));
    } else if pc.Guard? || pc.Execute? {
      CommandRuns(s, ok, stage, n);
    } else if pc.Enter? {
      EnterRuns(s, ok, stage, n);
    } else if InStage(pc) {
      BoundaryRuns(s, ok, stage, n);
    } else {
      MainRuns(s, ok, stage, n);
    }
  }

  lemma NothingRan(job: Job, stage: Stage, n: nat)
    requires job.Deploying? && !OnMainLine(job.pc)
    ensures Ran(job, stage, n)
  {
  }

  lemma {:induction false} RunRan(s: State, events: seq<Event>, stage: Stage)
    requires Inv(s) && Logged(s) && s.job.Deploying? && Ran(s.job, stage, 0) && Busy(s, events)
    ensures var t := Run(s, events);
      t.job.Deploying? && t.job.config == s.job.config && Ran(t.job, stage, CommandsRun(s, events, stage))
    decreases |events|
  {
    hide Inv, Logged, Ran, DeployStep, RollbackStep, CancelStep, CommandRun;
    if events != [] {
      var front, e := events[..|events| - 1], events[|events| - 1];
      var t := Run(s, front);
      RunRan(s, front, stage);
      RunKeepsInv(s, front);
      RunKeepsLog(s, front);
      OnlyStepsRun(t, e, stage);
      match e
      case Outcome(ok) =>
        DeployJob(t, ok);
        DeployRuns(t, ok, stage, CommandsRun(s, front, stage));
      case Deploy(_, _) =>
      case Rollback(_) =>
      case _ => CancelEffect(t, e);
    }
  }

  lemma OnlyStepsRun(s: State, e: Event, stage: Stage)
    ensures !e.Outcome? ==> CommandRun(s, e, stage) == 0
  {
  }

  /**
   On every run of a deploy that is past a workflow stage, the commands of the stage that ran and succeeded are
   as many as its workflow has: those of `pre_deploy` and `post_deploy`, one for a build command, one for a
   migration.  Before the stage none has run.
   */
  lemma CommandsRunExactly(s: State, id: Id, config: Config, events: seq<Event>, stage: Stage)
    requires Inv(s) && s.job.Idle? && Fresh(s.world, id) && Busy(Apply(s, Deploy(id, config)), events)
    requires var t := Run(Apply(s, Deploy(id, config)), events); t.job.Deploying? && OnMainLine(t.job.pc)
    ensures var start := Apply(s, Deploy(id, config));
      var pc, n := Run(start, events).job.pc, CommandsRun(start, events, stage);
      && (Beyond(pc, stage) && !Inside(pc, stage) ==>
            n == match stage
                 case PreDeploy => config.preDeploy
                 case Build => if config.build.BuildCommand? then 1 else 0
                 case Migrate => if config.migrate then 1 else 0
                 case PostDeploy => config.postDeploy)
      && (!Beyond(pc, stage) && !Inside(pc, stage) ==> n == 0)
  {
    hide Inv, Fresh, PreviousNode, Upsert, Run, CommandRun;
    var start := Apply(s, Deploy(id, config));
    StepKeepsInv(s, Deploy(id, config));
    LoggedStart(s, id, config);
    RunRan(start, events, stage);
  }

  // ----- rollbacks -----

  /** All steps of a rollback in which nothing fails. */
  function RollbackPath(target: Deployment): seq<RollbackPc> {
    if target.unit.Some? && target.port.Some? then
      [StartTarget, ProbeTarget, ActivateTarget, SwitchTarget, HealthTarget, DrainLive, WriteRollback]
    else [StartTarget, ActivateTarget, WriteRollback]
  }

  predicate OnRollbackPath(job: Job, k: nat)
    requires job.RollingBack?
  {
    !TurnsBack(job.rpc) ==> k < |RollbackPath(job.target)| && RollbackPath(job.target)[k] == job.rpc
  }

  lemma NextOnRollbackPath(s: State, ok: bool, k: nat)
    requires s.job.RollingBack? && OnRollbackPath(s.job, k) && RollbackStep(s, ok).job.RollingBack?
    ensures RollbackStep(s, ok).job.target == s.job.target && OnRollbackPath(RollbackStep(s, ok).job, k + 1)
  {
  }

  /** Every rollback takes the steps of its path one by one until it fails. */
  lemma {:induction false} RollbackFollowsPath(s: State, events: seq<Event>)
    requires Inv(s) && s.job.RollingBack? && s.job.rpc.StartTarget? && Busy(s, events)
    ensures var t, k, path := Run(s, events), Outcomes(events), RollbackPath(s.job.target);
      && t.job.RollingBack? && t.job.target == s.job.target
      && (!TurnsBack(t.job.rpc) ==> k < |path| && path[k] == t.job.rpc)
    decreases |events|
  {
    hide Inv, RollbackStep, CancelStep;
    if events != [] {
      var front, e := events[..|events| - 1], events[|events| - 1];
      var t := Run(s, front);
      RollbackFollowsPath(s, front);
      match e
      case Outcome(ok) =>
        RollbackStepStays(t, ok);
        NextOnRollbackPath(t, ok, Outcomes(front));
      case Deploy(_, _) =>
      case Rollback(_) =>
      case _ => CancelEffect(t, e);
    }
  }

  lemma RollbackStepStays(s: State, ok: bool)
    requires s.job.RollingBack?
    ensures Apply(s, Outcome(ok)) == RollbackStep(s, ok)
    ensures RollbackStep(s, ok).job.Idle? || RollbackStep(s, ok).job.RollingBack?
  {
  }

  // ----- where a rollback that fails ends -----

  /** A rollback that stops at once: it could not start the target's unit, link the target, or stop the live unit. */
  lemma RollbackGivesUp(s: State)
    requires Inv(s) && s.job.RollingBack? && !TurnsBack(s.job.rpc) && !s.job.rpc.WriteRollback?
    requires RollbackStep(s, false).job.Idle?
    ensures var w, origin, target := RollbackStep(s, false).world, s.job.origin, s.job.target;
      && w.deployments == s.world.deployments && w.directories == origin.directories
      && w.current == (if s.job.rpc.DrainLive? then Some(target.release) else origin.current)
      && w.upstream == (if s.job.rpc.DrainLive? then target.port else origin.upstream)
      && w.running == (if s.job.rpc.StartTarget? || !IsNode(target) then origin.running
                       else origin.running[target.unit.value := target.port.value])
  {
    hide RollbackTarget, ActiveNode, Listed;
  }

  /** A recovering rollback, in terms of the state in which its check failed. */
  predicate Recovers(s: State, u: State)
    requires s.job.RollingBack?
  {
    var back := if s.job.before.Some? then s.job.before else s.world.current;
    && u.job.RollingBack? && u.job == s.job.(rpc := u.job.rpc)
    && u.world.directories == s.world.directories && u.world.running == s.world.running
    && match u.job.rpc
       case Reactivate(reset) =>
         && !s.job.rpc.ProbeTarget? && reset == s.job.rpc.HealthTarget?
         && u.world.current == s.world.current && u.world.upstream == s.world.upstream
       case ResetUpstream =>
         s.job.rpc.HealthTarget? && u.world.current == back && u.world.upstream == s.world.upstream
       case StopTarget =>
         && u.world.current == (if s.job.rpc.ProbeTarget? then s.world.current else back)
         && u.world.upstream == (if s.job.rpc.HealthTarget? && PortOf(s.job.live).Some? then PortOf(s.job.live)
                                 else s.world.upstream)
       case _ => false
  }

  lemma RecoveryStep(s: State, u: State, ok: bool)
    requires s.job.RollingBack? && Recovers(s, u)
    ensures RollbackStep(u, ok).job.Idle? <==> u.job.rpc.StopTarget?
    ensures !u.job.rpc.StopTarget? ==> Recovers(s, RollbackStep(u, ok))
  {
  }

  predicate Checks(rpc: RollbackPc) {
    rpc.ProbeTarget? || rpc.SwitchTarget? || rpc.HealthTarget?
  }

  lemma {:induction false} RecoveryRun(s: State, events: seq<Event>)
    requires s.job.RollingBack? && Checks(s.job.rpc) && Busy(RollbackStep(s, false), events)
    ensures Recovers(s, Run(RollbackStep(s, false), events))
    decreases |events|
  {
    hide RollbackStep, DeployStep, CancelStep;
    if events == [] {
      RecoveryStarts(s);
    } else {
      var front, e := events[..|events| - 1], events[|events| - 1];
      var u := Run(RollbackStep(s, false), front);
      RecoveryRun(s, front);
      match e
      case Outcome(ok) => RecoveryStep(s, u, ok);
      case Deploy(_, _) =>
      case Rollback(_) =>
      case _ => CancelEffect(u, e);
    }
  }

  lemma RecoveryStarts(s: State)
    requires s.job.RollingBack? && Checks(s.job.rpc)
    ensures Recovers(s, RollbackStep(s, false))
  {
  }

  /**
   A rollback whose target is not ready, to which nginx cannot be switched, or which fails its check after the
   switch, ends with the target's unit stopped and, if a release was live, that release live; nginx is set back
   only after the last check, and only to a live release that was found.
   */
  lemma RollbackRecovers(s: State, events: seq<Event>, ok: bool)
    requires Inv(s) && s.job.RollingBack? && Checks(s.job.rpc) && Busy(RollbackStep(s, false), events)
    requires Apply(Run(RollbackStep(s, false), events), Outcome(ok)).job.Idle?
    ensures
      var u := Run(RollbackStep(s, false), events);
      var w, origin, target := Apply(u, Outcome(ok)).world, s.job.origin, s.job.target;
      && w.deployments == u.world.deployments && w.directories == origin.directories
      && target.unit.Some? && w.running == origin.running - {target.unit.value}
      && w.current == (if s.job.rpc.ProbeTarget? || origin.current.Some? then origin.current else Some(target.release))
      && w.upstream == (if !s.job.rpc.HealthTarget? then origin.upstream
                        else if ActiveNode(origin).Some? && ActiveNode(origin).value.port.Some?
                        then ActiveNode(origin).value.port
                        else target.port)
  {
    hide RollbackTarget, ActiveNode, Listed, Run;
    RecoveryRun(s, events);
    assert IsNode(s.job.target);
  }
}
