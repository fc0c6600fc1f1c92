/** Every operation ends, and a deploy that nothing disturbs completes. */
module ReleaseProgress {
  import opened Results
  import opened Releases
  import opened ReleaseInvariant
  import opened ReleaseHistory
  import opened ReleaseSafety
  import opened ReleaseCompletions

  // ----- an explicit bound on the steps left -----

  function StageLeft(n: nat): nat {
    if n == 0 then 2 else 2 * n
  }

  /** Steps left inside or after `post_deploy`. */
  function PostLeft(config: Config): (n: nat)
    ensures 7 <= n
  { 7 + config.processes }

  function HealthLeft(config: Config): (n: nat)
    ensures 7 <= n
  { PostLeft(config) + StageLeft(config.postDeploy) + 2 }

  function EntryLeft(config: Config): (n: nat)
    ensures 7 <= n
  { HealthLeft(config) + 8 }

  function MigrateLeft(config: Config): (n: nat)
    ensures 7 <= n
  { EntryLeft(config) + 1 }

  function BuildLeft(config: Config): (n: nat)
    ensures 7 <= n
  { MigrateLeft(config) + StageLeft(Commands(config, Migrate)) + 3 }

  function PreDeployLeft(config: Config): (n: nat)
    ensures 7 <= n
  { BuildLeft(config) + StageLeft(Commands(config, Build)) + 2 }

  function SourceLeft(config: Config): (n: nat)
    ensures 7 <= n
  { PreDeployLeft(config) + StageLeft(config.preDeploy) + 1 }

  function AfterLeft(config: Config, stage: Stage): nat {
    match stage
    case PreDeploy => PreDeployLeft(config)
    case Build => BuildLeft(config)
    case Migrate => MigrateLeft(config)
    case PostDeploy => PostLeft(config)
  }

  function UndoLeft(step: UndoStep): nat {
    match step
    case UndoActivation => 6
    case UndoUpstream => 5
    case UndoUnit => 4
    case UndoRecord => 3
    case UndoCurrent => 2
    case UndoDirectory => 1
  }

  function AbortLeft(step: AbortStep): nat {
    match step
    case AbortActivation => 5
    case AbortUpstream => 4
    case AbortUnit => 3
    case AbortDirectory => 2
    case AbortRecord => 1
  }

  /** At most this many steps of a deploy are left, whatever the environment answers. */
  function Left(config: Config, pc: Pc): nat {
    match pc
    case Prune => 1
    case Drained => 2
    case Drain => 3
    case Complete => 4
    case Processes(left) => 7 + left
    case Enter(stage) => AfterLeft(config, stage) + StageLeft(Commands(config, stage)) + 1
    case Guard(stage, left) => AfterLeft(config, stage) + StageLeft(left)
    case Execute(stage, left) => AfterLeft(config, stage) + StageLeft(left) - 1
    case Install => BuildLeft(config) + 1
    case Republish => BuildLeft(config)
    case Check(b) => (match b
      case AfterHealth => HealthLeft(config)
      case AfterMigrate => MigrateLeft(config)
      case AfterBuild => BuildLeft(config) - 1
      case AfterPreDeploy => PreDeployLeft(config)
      case AfterSource => SourceLeft(config) + 6)
    case Health => HealthLeft(config) + 1
    case Publish => HealthLeft(config) + 2
    case Switch => HealthLeft(config) + 3
    case Activate => HealthLeft(config) + 4
    case Probe => HealthLeft(config) + 5
    case Register => HealthLeft(config) + 6
    case StartUnit => HealthLeft(config) + 7
    case EntryPoint => EntryLeft(config)
    case Manifest => SourceLeft(config) + 2
    case Workspace => SourceLeft(config) + 1
    case Checkout => SourceLeft(config) + 3
    case Clone => SourceLeft(config) + 4
    case Resolve => SourceLeft(config) + 5
    case Fetch => SourceLeft(config) + 7
    case Undo(step, _, _) => UndoLeft(step)
    case Abort(step, _) => AbortLeft(step)
  }

  lemma CheckEnds(s: State, ok: bool)
    requires s.job.Deploying? && s.job.pc.Check?
    ensures var t := StageStep(s, ok);
      t.job.Deploying? && Left(s.job.config, t.job.pc) < Left(s.job.config, s.job.pc)
  {
    hide Upsert, StageLeft, PostLeft;
  }

  lemma GuardEnds(s: State, ok: bool)
    requires s.job.Deploying? && (s.job.pc.Guard? || s.job.pc.Republish?)
    ensures var t := StageStep(s, ok);
      t.job.Deploying? && Left(s.job.config, t.job.pc) < Left(s.job.config, s.job.pc)
  {
    hide Upsert, HealthLeft, EntryLeft, SourceLeft;
  }

  lemma CommandEnds(s: State, ok: bool)
    requires s.job.Deploying? && (s.job.pc.Execute? || s.job.pc.Install?)
    ensures var t := StageStep(s, ok);
      t.job.Deploying? && Left(s.job.config, t.job.pc) < Left(s.job.config, s.job.pc)
  {
    hide Upsert, FinishPhase, HealthLeft, EntryLeft, SourceLeft;
  }

  lemma EnterEnds(s: State, ok: bool)
    requires s.job.Deploying? && s.job.pc.Enter?
    ensures var t := StageStep(s, ok);
      t.job.Deploying? && Left(s.job.config, t.job.pc) < Left(s.job.config, s.job.pc)
  {
    hide Upsert, HealthLeft, EntryLeft, SourceLeft, PreDeployLeft;
  }

  lemma PreparationEnds(s: State, ok: bool)
    requires s.job.Deploying? && InMain(s.job.pc) && Rank(s.job.pc) < 14
    ensures var t := MainStep(s, ok);
      t.job.Deploying? && Left(s.job.config, t.job.pc) < Left(s.job.config, s.job.pc)
  {
    hide Upsert, ChoosePort, PreviousNode;
  }

  lemma ActivationEnds(s: State, ok: bool)
    requires s.job.Deploying? && InMain(s.job.pc) && Rank(s.job.pc) >= 14
    ensures var t := MainStep(s, ok);
      t.job.Idle? || (t.job.Deploying? && Left(s.job.config, t.job.pc) < Left(s.job.config, s.job.pc))
  {
    hide Upsert, Expired, StageLeft, PostLeft, HealthLeft, EntryLeft, SourceLeft;
  }

  lemma UndoStepEnds(s: State)
    requires s.job.Deploying? && s.job.pc.Undo?
    ensures var t := UndoStepOf(s);
      t.job.Idle? || (t.job.Deploying? && t.job.pc.Undo? && UndoLeft(t.job.pc.undo) < UndoLeft(s.job.pc.undo))
  {
    hide Upsert;
  }

  lemma AbortStepEnds(s: State)
    requires s.job.Deploying? && s.job.pc.Abort?
    ensures var t := AbortStepOf(s);
      t.job.Idle? || (t.job.Deploying? && t.job.pc.Abort? && AbortLeft(t.job.pc.abort) < AbortLeft(s.job.pc.abort))
  {
    hide Upsert, Activated;
  }

  lemma FailureStepEnds(s: State, ok: bool)
    requires s.job.Deploying? && (s.job.pc.Undo? || s.job.pc.Abort?)
    ensures var t := DeployStep(s, ok);
      t.job.Idle? || (t.job.Deploying? && Left(s.job.config, t.job.pc) < Left(s.job.config, s.job.pc))
  {
    hide UndoStepOf, AbortStepOf, MainStep, StageStep, UndoLeft, AbortLeft, AfterLeft, StageLeft;
    if s.job.pc.Undo? { UndoStepEnds(s); } else { AbortStepEnds(s); }
  }

  /** A deploy ends: each step uses up at least one of the steps left. */
  lemma DeployStepEnds(s: State, ok: bool)
    requires s.job.Deploying?
    ensures var t := DeployStep(s, ok);
      t.job.Idle? || (t.job.Deploying? && Left(s.job.config, t.job.pc) < Left(s.job.config, s.job.pc))
  {
    hide Left, StageStep, MainStep, UndoStepOf, AbortStepOf, Rank;
    var pc := s.job.pc;
    if pc.Undo? || pc.Abort? {
      FailureStepEnds(s, ok);
    } else if pc.Check? {
      CheckEnds(s, ok);
    } else if pc.Guard? || pc.Republish? {
      GuardEnds(s, ok);
    } else if pc.Enter? {
      EnterEnds(s, ok);
    } else if InStage(pc) {
      CommandEnds(s, ok);
    } else if Rank(pc) < 14 {
      PreparationEnds(s, ok);
    } else {
      ActivationEnds(s, ok);
    }
  }

  function RollbackLeft(rpc: RollbackPc): nat {
    match rpc
    case StartTarget => 8
    case ProbeTarget => 7
    case ActivateTarget => 6
    case SwitchTarget => 5
    case HealthTarget => 4
    case DrainLive => 2
    case WriteRollback => 1
    case Reactivate(_) => 3
    case ResetUpstream => 2
    case StopTarget => 1
  }

  function StepsLeft(job: Job): nat {
    match job
    case Idle => 0
    case Deploying(_, config, _, _, pc) => Left(config, pc)
    case RollingBack(_, _, _, _, _, rpc) => RollbackLeft(rpc)
  }

  function Outcomes(events: seq<Event>): nat {
    if events == [] then 0
    else Outcomes(events[..|events| - 1]) + if events[|events| - 1].Outcome? then 1 else 0
  }

  /** No state of the run, the last included, is idle. */
  predicate Busy(s: State, events: seq<Event>)
    decreases |events|
  {
    !Run(s, events).job.Idle? && (events == [] || Busy(s, events[..|events| - 1]))
  }

  lemma StepUsesUp(s: State, e: Event)
    requires !s.job.Idle? && !Apply(s, e).job.Idle?
    ensures StepsLeft(Apply(s, e).job) + (if e.Outcome? then 1 else 0) <= StepsLeft(s.job)
  {
    hide Left, RollbackLeft, DeployStep, RollbackStep, CancelStep, Upsert;
    match e
    case Outcome(ok) =>
      if s.job.Deploying? {
        DeployJob(s, ok);
        DeployStepEnds(s, ok);
      } else {
        RollbackStepEnds(s, ok);
      }
    case Deploy(_, _) =>
    case Rollback(_) =>
    case _ => CancelEffect(s, e);
  }

  lemma RollbackStepEnds(s: State, ok: bool)
    requires s.job.RollingBack?
    ensures var t := RollbackStep(s, ok);
      t.job.Idle? || (t.job.RollingBack? && RollbackLeft(t.job.rpc) < RollbackLeft(s.job.rpc))
  {
    hide Upsert;
  }

  /** An operation takes at most `StepsLeft` steps; cancellations in between do not prolong it. */
  lemma {:induction false} OperationsEnd(s: State, events: seq<Event>)
    requires Busy(s, events)
    ensures Outcomes(events) + StepsLeft(Run(s, events).job) <= StepsLeft(s.job)
    decreases |events|
  {
    hide StepsLeft, Apply;
    if events != [] {
      OperationsEnd(s, events[..|events| - 1]);
      StepUsesUp(Run(s, events[..|events| - 1]), events[|events| - 1]);
    }
  }

  // ----- the undisturbed deploy -----

  function Oks(n: nat): (events: seq<Event>)
    ensures |events| == n && forall i :: 0 <= i < n ==> events[i] == Outcome(true)
  {
    seq(n, _ => Outcome(true))
  }

  lemma {:induction false} RunAppend(s: State, first: seq<Event>, second: seq<Event>)
    ensures Run(s, first + second) == Run(Run(s, first), second)
    decreases |second|
  {
    if second == [] {
      assert first + second == first;
    } else {
      var front := second[..|second| - 1];
      RunAppend(s, first, front);
      assert (first + second)[..|first + second| - 1] == first + front;
    }
  }

  lemma RunOne(s: State, e: Event, rest: seq<Event>)
    ensures Run(s, [e] + rest) == Run(Apply(s, e), rest)
  {
    RunAppend(s, [e], rest);
    assert [e][..0] == [];
    assert Run(s, [e]) == Apply(s, e);
  }

  /** The last record of the list is Completed. */
  predicate LastCompleted(w: World) {
    w.deployments != [] && w.deployments[|w.deployments| - 1].status == Completed
  }

  /**
   A deploy on its main line that is not marked for cancellation, whose handoff, if any, is valid, and
   whose record was not overwritten since its last write.
   */
  ghost predicate Undisturbed(s: State) {
    && Inv(s)
    && s.job.Deploying? && !s.job.pc.Undo? && !s.job.pc.Abort?
    && s.job.local.id !in s.world.markers
    && (s.job.config.handoff.Some? ==> s.job.config.handoff.value.Valid())
    && (s.job.pc.Prune? ==> LastCompleted(s.world))
  }

  lemma OkStageStep(s: State)
    requires s.job.Deploying? && InStage(s.job.pc) && s.job.local.id !in s.world.markers
    ensures var t := StageStep(s, true);
      && t.job.Deploying? && !t.job.pc.Undo? && !t.job.pc.Abort? && t.world.markers == s.world.markers
      && Rank(s.job.pc) <= Rank(t.job.pc) && (Rank(s.job.pc) < 14 ==> Rank(t.job.pc) < 14)
  {
    hide Upsert, FinishPhase, Inv;
  }

  lemma OkPreparation(s: State)
    requires s.job.Deploying? && InMain(s.job.pc) && Rank(s.job.pc) < 14
    requires s.job.config.handoff.Some? ==> s.job.config.handoff.value.Valid()
    requires s.job.pc.StartUnit? ==> s.job.config.handoff.Some?
    requires s.job.pc.Activate? && s.job.config.handoff.Some? ==> s.job.local.port.Some?
    ensures var t := MainStep(s, true);
      && t.job.Deploying? && t.world.markers == s.world.markers && t.requests == s.requests
      && !t.job.pc.Undo? && !t.job.pc.Abort? && Rank(s.job.pc) <= Rank(t.job.pc)
      && (s.job.config.handoff.Some? ==> Rank(t.job.pc) <= 14)
  {
    hide Upsert, ChoosePort;
  }

  lemma OkActivation(s: State)
    requires s.job.Deploying? && InMain(s.job.pc) && Rank(s.job.pc) >= 14
    ensures var t := MainStep(s, true);
      && (t.job.Idle? <==> s.job.pc.Prune?) && (t.job.Idle? || t.job.Deploying?)
      && t.world.markers == s.world.markers && t.requests == s.requests
      && (t.job.Deploying? ==> !t.job.pc.Undo? && !t.job.pc.Abort? && Rank(s.job.pc) <= Rank(t.job.pc))
  {
    hide Upsert, Expired;
  }

  lemma OkMainStep(s: State)
    requires s.job.Deploying? && InMain(s.job.pc)
    requires s.job.config.handoff.Some? ==> s.job.config.handoff.value.Valid()
    requires s.job.pc.StartUnit? ==> s.job.config.handoff.Some?
    requires s.job.pc.Activate? && s.job.config.handoff.Some? ==> s.job.local.port.Some?
    ensures var t := MainStep(s, true);
      && (t.job.Idle? <==> s.job.pc.Prune?)
      && t.world.markers == s.world.markers && t.requests == s.requests
      && (t.job.Deploying? ==>
            && !t.job.pc.Undo? && !t.job.pc.Abort?
            && Rank(s.job.pc) <= Rank(t.job.pc)
            && (Rank(s.job.pc) < 14 && s.job.config.handoff.Some? ==> Rank(t.job.pc) <= 14))
  {
    hide MainStep, StageRank;
    if Rank(s.job.pc) < 14 { OkPreparation(s); } else { OkActivation(s); }
  }

  lemma UndisturbedFacts(s: State)
    requires Undisturbed(s)
    ensures s.job.pc.StartUnit? ==> s.job.config.handoff.Some?
    ensures s.job.pc.Activate? && s.job.config.handoff.Some? ==> s.job.local.port.Some?
  {
    hide Listed, PreviousNode, Fresh;
  }

  lemma LastWriteCompletes(s: State)
    requires Inv(s) && s.job.Deploying? && s.job.pc.Drained?
    ensures LastCompleted(DeployStep(s, true).world)
  {
    hide DeployStep, Progress, Undoing, Aborting, Listed;
    assert OwnRecord(s.job);
    WhenWritten(s, true);
    OwnStep(s, true);
    OwnLastStatus(s);
  }

  lemma OkStep(s: State)
    requires Undisturbed(s)
    ensures var t := Apply(s, Outcome(true));
      && t.requests == s.requests && t.world.markers == s.world.markers
      && (t.job.Idle? <==> s.job.pc.Prune?)
      && (t.job.Deploying? ==>
            && Undisturbed(t)
            && t.job.local.id == s.job.local.id && t.job.config == s.job.config && t.job.origin == s.job.origin
            && Rank(s.job.pc) <= Rank(t.job.pc)
            && (Rank(s.job.pc) < 14 && s.job.config.handoff.Some? ==> Rank(t.job.pc) <= 14))
      && (t.job.Idle? || (t.job.Deploying? && StepsLeft(t.job) < StepsLeft(s.job)))
  {
    hide Left, Rank, Inv, StageStep, MainStep, UndoStepOf, AbortStepOf, LastCompleted;
    StepKeepsInv(s, Outcome(true));
    DeployJob(s, true);
    StepRequests(s);
    if InStage(s.job.pc) {
      OkStageStep(s);
    } else {
      UndisturbedFacts(s);
      OkMainStep(s);
    }
    DeployStepEnds(s, true);
    assert OwnRecord(s.job) by { OwnRecordNow(s); }
    WhenWritten(s, true);
    if s.job.pc.Drained? { LastWriteCompletes(s); }
  }

  lemma OwnRecordNow(s: State)
    requires Inv(s) && s.job.Deploying?
    ensures OwnRecord(s.job)
  {
    hide OwnRecord, Progress, Undoing, Aborting, Listed;
  }

  lemma StepRequests(s: State)
    requires s.job.Deploying? && Inv(s)
    ensures DeployStep(s, true).requests == s.requests
  {
    hide Listed, OwnRecord, Progress, Undoing, Aborting, RecordWritten;
    ReleaseHistory.DeployWrites(s, true);
  }

  /** The unit of the previous Node release has been stopped, or is still to be. */
  predicate DrainsUnit(s: State)
    requires s.job.Deploying? && !s.job.pc.Undo? && !s.job.pc.Abort?
  {
    var node := s.job.node;
    Rank(s.job.pc) <= 21 || s.job.config.handoff.None? || node.None? || node.value.unit.None?
    || node.value.unit.value !in s.world.running
  }

  lemma OkStepDrains(s: State)
    requires Undisturbed(s) && DrainsUnit(s) && !s.job.pc.Prune?
    ensures var t := Apply(s, Outcome(true));
      t.job.Deploying? && !t.job.pc.Undo? && !t.job.pc.Abort? && DrainsUnit(t)
  {
    hide Inv, StageStep, MainStep;
    OkStep(s);
    if s.job.pc.Drain? || s.job.pc.Drained? {
      DrainingDrains(s);
    } else {
      RankBeforeDrain(s);
    }
  }

  lemma DrainingDrains(s: State)
    requires s.job.Deploying? && (s.job.pc.Drain? || s.job.pc.Drained?) && DrainsUnit(s)
    ensures var t := MainStep(s, true); t.job.Deploying? && !t.job.pc.Undo? && !t.job.pc.Abort? && DrainsUnit(t)
  {
    hide Upsert;
  }

  lemma RankBeforeDrain(s: State)
    requires Undisturbed(s) && !s.job.pc.Drain? && !s.job.pc.Drained? && !s.job.pc.Prune?
    ensures var t := Apply(s, Outcome(true));
      t.job.Deploying? ==> t.job.pc.Undo? || t.job.pc.Abort? || Rank(t.job.pc) <= 21
  {
    hide Upsert, FinishPhase, Inv, Expired;
  }

  function UnitsOf(node: Option<Deployment>): set<Unit> {
    if node.Some? && node.value.unit.Some? then {node.value.unit.value} else {}
  }

  /** What a deploy that completed without a disturbance has made of the world it began in. */
  ghost predicate DeployedFrom(origin: World, config: Config, id: Id, w: World) {
    && w.current == Some(ReleaseDir(id))
    && |w.deployments| == |origin.deployments| + 1
    && var r := w.deployments[|origin.deployments|];
    && r.id == id && r.status == Completed && r.release == ReleaseDir(id)
    && ReleaseDir(id) in w.directories
    && (|CompletedOf(w.deployments)| <= config.retention ==> w.directories == origin.directories + {ReleaseDir(id)})
    && (config.handoff.Some? ==>
          var port := ChoosePort(config.handoff.value, PortOf(PreviousNode(origin)));
          r.unit == Some(WebUnit(id)) && r.port == Some(port) && w.upstream == Some(port))
  }

  /** With a handoff, only the unit of the previous release was stopped. */
  predicate UnitsHandedOver(origin: World, config: Config, id: Id, running: map<Unit, Port>) {
    config.handoff.Some? ==>
      running == origin.running[WebUnit(id) := ChoosePort(config.handoff.value, PortOf(PreviousNode(origin)))]
                 - UnitsOf(PreviousNode(origin))
  }

  /**
   From any point of its main line, a deploy whose external calls succeed ends with its release live
   and Completed.
   */
  lemma {:induction false} UndisturbedDeployCompletes(s: State) returns (n: nat)
    requires Undisturbed(s)
    ensures var t, before := Run(s, Oks(n)), |s.job.origin.deployments|;
      && t.job.Idle? && t.requests == s.requests && t.world.markers == s.world.markers && Inv(t)
      && DeployedFrom(s.job.origin, s.job.config, s.job.local.id, t.world)
      && before <= |s.world.deployments| && t.world.deployments[..before] == s.world.deployments[..before]
      && (DrainsUnit(s) ==> UnitsHandedOver(s.job.origin, s.job.config, s.job.local.id, t.world.running))
    decreases StepsLeft(s.job)
  {
    hide Inv, StepsLeft, Apply, DrainsUnit, DeployedFrom, UnitsHandedOver, LastCompleted;
    OkStep(s);
    OwnStep(s, true);
    var t := Apply(s, Outcome(true));
    assert t == DeployStep(s, true) by { OutcomeIsStep(s); }
    if t.job.Idle? {
      n := 1;
      assert Oks(1) == [Outcome(true)] + [];
      RunOne(s, Outcome(true), []);
      PruneEnds(s);
    } else {
      var m := UndisturbedDeployCompletes(t);
      n := m + 1;
      assert Oks(n) == [Outcome(true)] + Oks(m);
      RunOne(s, Outcome(true), Oks(m));
      if DrainsUnit(s) { OkStepDrains(s); }
    }
  }

  lemma OutcomeIsStep(s: State)
    requires s.job.Deploying?
    ensures Apply(s, Outcome(true)) == DeployStep(s, true)
  {
    hide DeployStep;
  }

  lemma PruneEnds(s: State)
    requires Undisturbed(s) && s.job.pc.Prune?
    ensures var t := Apply(s, Outcome(true));
      && t.job.Idle? && Inv(t)
      && DeployedFrom(s.job.origin, s.job.config, s.job.local.id, t.world)
      && (DrainsUnit(s) ==> UnitsHandedOver(s.job.origin, s.job.config, s.job.local.id, t.world.running))
  {
    hide DeployStep, Expired, PreviousNode, ChoosePort, CompletedOf, Listed, Shaped;
    StepKeepsInv(s, Outcome(true));
    PruneEndsDeploy(s, true);
    PruneFacts(s);
    hide Inv;
    OutcomeIsStep(s);
    if |CompletedOf(s.world.deployments)| <= s.job.config.retention { NothingExpires(s.world, s.job.config.retention); }
    if DrainsUnit(s) && s.job.config.handoff.Some? {
      var started := s.job.origin.running[
        WebUnit(s.job.local.id) := ChoosePort(s.job.config.handoff.value, PortOf(PreviousNode(s.job.origin)))];
      HandedOver(started, s.world.running, UnitsOf(PreviousNode(s.job.origin)));
    }
  }

  lemma HandedOver(started: map<Unit, Port>, running: map<Unit, Port>, units: set<Unit>)
    requires running == started || running == started - units
    requires forall u :: u in units ==> u !in running
    ensures running == started - units
  {
  }

  lemma NothingExpires(w: World, retention: nat)
    requires |CompletedOf(w.deployments)| <= retention
    ensures Expired(w, retention) == {}
  {
    hide CompletedOf;
  }

  lemma PruneFacts(s: State)
    requires Inv(s) && s.job.Deploying? && s.job.pc.Prune? && LastCompleted(s.world)
    ensures var origin, w, d := s.job.origin, s.world, s.job.local;
      && |w.deployments| == |origin.deployments| + 1
      && var r := w.deployments[|origin.deployments|];
      && r.id == d.id && r.release == ReleaseDir(d.id)
      && (s.job.config.handoff.Some? ==>
            var port := ChoosePort(s.job.config.handoff.value, PortOf(PreviousNode(origin)));
            && r.unit == Some(WebUnit(d.id)) && r.port == Some(port) && w.upstream == Some(port)
            && (w.running == origin.running[WebUnit(d.id) := port]
                || w.running == origin.running[WebUnit(d.id) := port] - UnitsOf(PreviousNode(origin)))
            && s.job.node == PreviousNode(origin))
  {
    hide PreviousNode, Expired, CompletedOf, ChoosePort;
    var r := s.world.deployments[|s.world.deployments| - 1];
    assert Proper(r);
  }
}
