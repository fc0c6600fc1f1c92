/**
 What every step of every operation keeps.  While an operation runs, the shared world is a
 function of the world it began in and of its program counter; that closed form is stated by
 `Progress`, `Undoing`, `Aborting` and `RollingForward` below and proved inductive for all events.
 */
module ReleaseInvariant {
  import opened Results
  import opened Releases

  // ----- records -----

  ghost predicate Proper(r: Deployment) {
    r.status != RolledBack ==>
      && r.release == ReleaseDir(r.id)
      && (r.unit.Some? <==> r.port.Some?)
      && (r.unit.Some? ==> r.unit.value == WebUnit(r.id))
  }

  ghost predicate Records(ds: seq<Deployment>) {
    && (forall i, j :: 0 <= i < j < |ds| ==> ds[i].id != ds[j].id)
    && (forall i :: 0 <= i < |ds| ==> Proper(ds[i]))
  }

  /** Same records in the same places; a record may lose its Completed status but never gains it. */
  ghost predicate Related(before: seq<Deployment>, after: seq<Deployment>) {
    && |before| == |after|
    && (forall i :: 0 <= i < |before| ==> after[i].id == before[i].id)
    && (forall i :: 0 <= i < |before| && after[i].status == Completed ==> after[i] == before[i])
  }

  ghost predicate Pending(s: State) {
    forall k :: k in s.requests ==>
      var r := s.requests[k].snapshot;
      Has(s.world.deployments, r.id) && r.status == Started && Proper(r)
  }

  // ----- the closed form of a deploy -----

  /** How far a deploy has come. */
  function Rank(pc: Pc): nat
    requires !pc.Undo? && !pc.Abort?
  {
    match pc
    case Fetch => 0
    case Check(b) => (match b
      case AfterSource => 1
      case AfterPreDeploy => 6
      case AfterBuild => 7
      case AfterMigrate => 8
      case AfterHealth => 17)
    case Resolve => 2
    case Clone => 3
    case Checkout => 4
    case Manifest => 5
    case Workspace => 5
    case Enter(stage) => StageRank(stage)
    case Guard(stage, _) => StageRank(stage)
    case Execute(stage, _) => StageRank(stage)
    case Install => 7
    case Republish => 7
    case EntryPoint => 9
    case StartUnit => 10
    case Register => 11
    case Probe => 12
    case Activate => 13
    case Switch => 14
    case Publish => 15
    case Health => 16
    case Processes(_) => 19
    case Complete => 20
    case Drain => 21
    case Drained => 22
    case Prune => 23
  }

  function StageRank(stage: Stage): nat {
    match stage
    case PreDeploy => 6
    case Build => 7
    case Migrate => 8
    case PostDeploy => 18
  }

  /** The running units once the release's own unit, if it has one, was started. */
  function WithUnit(running: map<Unit, Port>, d: Deployment): map<Unit, Port> {
    if d.unit.Some? && d.port.Some? then running[d.unit.value := d.port.value] else running
  }

  predicate Restorable(origin: World) {
    origin.current.Some? && origin.current.value in origin.directories
  }

  /** A deploy that has written its record as Completed. */
  predicate Done(pc: Pc) {
    pc.Drain? || pc.Drained? || pc.Prune?
  }

  /** Facts about a deploy's own variables that hold at every step. */
  ghost predicate OwnRecord(job: Job)
    requires job.Deploying?
  {
    var Deploying(origin, config, d, node, pc) := job;
    && Fresh(origin, d.id)
    && node == PreviousNode(origin)
    && d.release == ReleaseDir(d.id)
    && d.previous == origin.current
    && d.status != RolledBack
    && (d.status == Completed <==> Done(pc))
    && (d.unit.Some? <==> d.port.Some?)
    && (d.unit.Some? ==>
          && d.unit.value == WebUnit(d.id)
          && config.handoff.Some? && config.handoff.value.Valid()
          && d.port == Some(ChoosePort(config.handoff.value, PortOf(node))))
  }

  /** A deploy's record is the last of the list, and stored as Completed at most once the deploy is done. */
  ghost predicate OwnPlace(before: seq<Deployment>, ds: seq<Deployment>, d: Deployment, done: bool) {
    && |ds| == |before| + 1
    && ds[|before|].id == d.id
    && ds[|before|].status != RolledBack
    && (ds[|before|].status == Completed ==> done && ds[|before|].unit == d.unit && ds[|before|].port == d.port)
    && Related(before, ds[..|before|])
  }

  ghost predicate Listed(s: State) {
    && Records(s.world.deployments)
    && Pending(s)
    && (s.job.Deploying? ==>
          && Records(s.job.origin.deployments)
          && OwnPlace(s.job.origin.deployments, s.world.deployments, s.job.local, Done(s.job.pc)))
    && (s.job.RollingBack? ==>
          && Records(s.job.origin.deployments)
          && Related(s.job.origin.deployments, s.world.deployments)
          && !Has(s.world.deployments, s.job.record))
  }

  /** The world at a step of `prepare_release` or of the successful branch. */
  ghost predicate Progress(s: State)
    requires s.job.Deploying? && !s.job.pc.Undo? && !s.job.pc.Abort?
  {
    var Deploying(origin, config, d, node, pc) := s.job;
    var w, rank := s.world, Rank(pc);
    && (rank <= 10 ==> d.unit.None?)
    && (10 <= rank <= 12 || rank == 14 ==> config.handoff.Some?)
    && (11 <= rank ==> (d.unit.Some? <==> config.handoff.Some?))
    && (Activated(d) <==> 14 <= rank)
    && w.directories == (if 4 <= rank then origin.directories + {d.release} else origin.directories)
    && w.current == (if 14 <= rank then Some(d.release) else origin.current)
    && w.upstream == (if 15 <= rank && d.unit.Some? then d.port else origin.upstream)
    && (w.running == WithUnit(origin.running, d)
        || (22 <= rank && node.Some? && node.value.unit.Some?
            && w.running == WithUnit(origin.running, d) - {node.value.unit.value}))
  }

  /** Where nginx points after `UndoUpstream` or `AbortUpstream`, given where it pointed before. */
  function ResetPort(before: Option<Port>, d: Deployment, node: Option<Deployment>): Option<Port> {
    if d.unit.Some? && PortOf(node).Some? then PortOf(node) else before
  }

  ghost predicate Undoing(s: State)
    requires s.job.Deploying? && s.job.pc.Undo?
  {
    var Deploying(origin, config, d, node, pc) := s.job;
    var w, step, rolledBack := s.world, pc.undo, pc.rolledBack;
    var switched := if d.unit.Some? then d.port else origin.upstream;
    && Activated(d)
    && (d.unit.Some? <==> config.handoff.Some?)
    && (step.UndoActivation? || rolledBack == Restorable(origin))
    && w.directories == origin.directories + {d.release}
    && w.current == (if step.UndoActivation? then Some(d.release)
                     else if rolledBack then origin.current
                     else if step.UndoDirectory? then None
                     else Some(d.release))
    && w.upstream == (if step.UndoActivation? || step.UndoUpstream? then switched else ResetPort(switched, d, node))
    && w.running == (if step.UndoActivation? || step.UndoUpstream? || step.UndoUnit?
                     then WithUnit(origin.running, d) else origin.running)
  }

  ghost predicate Aborting(s: State)
    requires s.job.Deploying? && s.job.pc.Abort?
  {
    var Deploying(origin, config, d, node, pc) := s.job;
    var w, step, restored := s.world, pc.abort, pc.restored;
    && (Activated(d) ==> d.unit.Some?)
    && (step.AbortActivation? || restored == (Activated(d) && Restorable(origin)))
    && (if step.AbortRecord? then w.directories == origin.directories
        else w.directories == origin.directories + {d.release}
             || (w.directories == origin.directories && !Activated(d)))
    && w.current == (if Activated(d) && (step.AbortActivation? || !restored) then Some(d.release) else origin.current)
    && w.upstream == (if step.AbortActivation? || step.AbortUpstream? then origin.upstream
                      else ResetPort(origin.upstream, d, node))
    && w.running == (if step.AbortActivation? || step.AbortUpstream? || step.AbortUnit?
                     then WithUnit(origin.running, d) else origin.running)
  }

  // ----- the closed form of a rollback -----

  ghost predicate RollingForward(s: State)
    requires s.job.RollingBack?
  {
    var RollingBack(origin, before, record, target, live, rpc) := s.job;
    var w := s.world;
    var started := WithUnit(origin.running, target);
    && before == origin.current
    && RollbackTarget(origin) == Some(target)
    && live == ActiveNode(origin)
    && w.directories == origin.directories
    && (IsNode(target) || rpc in {StartTarget, ActivateTarget, WriteRollback})
    && match rpc
       case StartTarget => w.running == origin.running && w.current == origin.current && w.upstream == origin.upstream
       case ProbeTarget => w.running == started && w.current == origin.current && w.upstream == origin.upstream
       case ActivateTarget => w.running == started && w.current == origin.current && w.upstream == origin.upstream
       case SwitchTarget => w.running == started && w.current == Some(target.release) && w.upstream == origin.upstream
       case HealthTarget => w.running == started && w.current == Some(target.release) && w.upstream == target.port
       case DrainLive => w.running == started && w.current == Some(target.release) && w.upstream == target.port
       case WriteRollback =>
         && w.current == Some(target.release)
         && w.upstream == (if IsNode(target) then target.port else origin.upstream)
         && w.running == (if IsNode(target) && live.Some? && live.value.unit.Some? && live.value.unit != target.unit
                          then started - {live.value.unit.value} else started)
       case Reactivate(reset) =>
         w.running == started && w.current == Some(target.release)
         && w.upstream == (if reset then target.port else origin.upstream)
       case ResetUpstream =>
         w.running == started && w.upstream == target.port
         && w.current == (if origin.current.Some? then origin.current else Some(target.release))
       case StopTarget =>
         && w.running == started
         && (w.current == origin.current || (origin.current.None? && w.current == Some(target.release)))
         && (origin.current.Some? ==>
               && (w.upstream == origin.upstream
                   || w.upstream == (if PortOf(live).Some? then PortOf(live) else target.port)))
  }

  // ----- the invariant -----

  ghost predicate Shaped(s: State) {
    match s.job
    case Idle => true
    case RollingBack(_, _, _, _, _, _) => RollingForward(s)
    case Deploying(_, _, _, _, pc) =>
      && OwnRecord(s.job)
      && if pc.Undo? then Undoing(s) else if pc.Abort? then Aborting(s) else Progress(s)
  }

  ghost predicate Inv(s: State) {
    Listed(s) && Shaped(s)
  }

  // ----- lists -----

  lemma IndexAt(ds: seq<Deployment>, k: nat)
    requires Records(ds) && k < |ds|
    ensures IndexOf(ds, ds[k].id) == k
  {
    var i := IndexOf(ds, ds[k].id);
    if k < i { assert false; }
  }

  /** A proper record written back keeps the list proper and changes one place. */
  lemma UpsertInPlace(ds: seq<Deployment>, d: Deployment)
    requires Records(ds) && Has(ds, d.id) && Proper(d)
    ensures Upsert(ds, d) == ds[IndexOf(ds, d.id) := d]
    ensures Records(Upsert(ds, d))
    ensures forall id :: Has(Upsert(ds, d), id) <==> Has(ds, id)
  {
    forall id
      ensures Has(Upsert(ds, d), id) <==> Has(ds, id)
    {
      var es := Upsert(ds, d);
      var i, j := IndexOf(ds, id), IndexOf(es, id);
      if i < |ds| { assert es[i].id == id; }
      if j < |es| { assert ds[j].id == id; }
    }
  }

  lemma UpsertNew(ds: seq<Deployment>, d: Deployment)
    requires Records(ds) && !Has(ds, d.id) && Proper(d)
    ensures Upsert(ds, d) == ds + [d]
    ensures Records(Upsert(ds, d))
    ensures forall id :: Has(ds, id) ==> Has(Upsert(ds, d), id)
  {
    forall id | Has(ds, id)
      ensures Has(Upsert(ds, d), id)
    {
      assert (ds + [d])[IndexOf(ds, id)].id == id;
    }
  }

  // ----- phases -----

  lemma {:induction false} FinishKeepsActivation(phases: seq<Phase>, name: PhaseName, status: PhaseStatus)
    requires name != Activation
    ensures ACTIVATION in FinishPhase(phases, name, status) <==> ACTIVATION in phases
  {
    if phases != [] {
      var last := |phases| - 1;
      FinishKeepsActivation(phases[..last], name, status);
      assert phases == phases[..last] + [phases[last]];
    }
  }

  lemma FinishedKeepsActivation(d: Deployment, name: PhaseName, status: PhaseStatus)
    requires name != Activation
    ensures Activated(Finished(d, name, status)) <==> Activated(d)
  {
    FinishKeepsActivation(d.phases, name, status);
  }

  lemma PushKeepsActivation(d: Deployment, name: PhaseName, status: PhaseStatus)
    requires name != Activation
    ensures Activated(Pushed(d, name, status)) <==> Activated(d)
  {
  }

  lemma StatusKeepsActivation(d: Deployment, healthy: bool, status: Status)
    ensures Activated(d.(healthy := healthy, status := status)) <==> Activated(d)
  {
  }

  // ----- preservation of the shape -----

  predicate InStage(pc: Pc) {
    pc.Enter? || pc.Guard? || pc.Execute? || pc.Install? || pc.Republish? || pc.Check?
  }

  predicate InMain(pc: Pc) {
    !InStage(pc) && !pc.Undo? && !pc.Abort?
  }

  /** The step changed neither directories, links, units nor nginx, and kept the release's own identity. */
  ghost predicate Quiet(s: State, t: State)
    requires s.job.Deploying? && t.job.Deploying?
  {
    var d, e := s.job.local, t.job.local;
    && t.job == s.job.(local := e, pc := t.job.pc)
    && t.world.directories == s.world.directories && t.world.current == s.world.current
    && t.world.upstream == s.world.upstream && t.world.running == s.world.running
    && e.id == d.id && e.release == d.release && e.previous == d.previous && e.unit == d.unit && e.port == d.port
    && (Activated(e) <==> Activated(d))
    && e.status != RolledBack && (e.status == Completed <==> Done(t.job.pc))
  }

  /** No region border of `Progress` lies between the two ranks. */
  predicate SameRegion(r: nat, r': nat) {
    && (r < 4 <==> r' < 4)
    && (r < 10 <==> r' < 10)
    && (r < 11 <==> r' < 11)
    && (r < 13 <==> r' < 13)
    && (r < 14 <==> r' < 14)
    && (r < 15 <==> r' < 15)
    && (22 <= r ==> 22 <= r')
  }

  predicate QuietMove(from: Pc, to: Pc)
    requires !from.Undo? && !from.Abort?
  {
    if to.Undo? then to.undo == UndoActivation && 15 <= Rank(from)
    else if to.Abort? then to.abort == AbortActivation && Rank(from) < 14
    else SameRegion(Rank(from), Rank(to))
  }

  lemma QuietStepKeepsShape(s: State, t: State)
    requires s.job.Deploying? && !s.job.pc.Undo? && !s.job.pc.Abort? && Shaped(s)
    requires t.job.Deploying? && Quiet(s, t) && QuietMove(s.job.pc, t.job.pc)
    requires Rank(s.job.pc) <= 20 || Done(t.job.pc)
    ensures Shaped(t)
  {
    hide PreviousNode;
    hide Fresh;
  }

  lemma CheckIsQuiet(s: State, ok: bool)
    requires s.job.Deploying? && s.job.pc.Check?
    requires s.job.local.status != Completed && s.job.local.status != RolledBack
    ensures var t := StageStep(s, ok);
      t.job.Deploying? && Quiet(s, t) && QuietMove(s.job.pc, t.job.pc)
  {
    hide Upsert, Activated;
    var d := s.job.local;
    StatusKeepsActivation(d, d.healthy, Cancelled);
    PushKeepsActivation(d.(status := Cancelled), Cancellation, PhaseFailed);
  }

  lemma GuardIsQuiet(s: State, ok: bool)
    requires s.job.Deploying? && s.job.pc.Guard?
    requires s.job.local.status != Completed && s.job.local.status != RolledBack
    ensures var t := StageStep(s, ok);
      t.job.Deploying? && Quiet(s, t) && QuietMove(s.job.pc, t.job.pc)
  {
    hide Upsert, Activated;
    var d := s.job.local;
    StatusKeepsActivation(d, d.healthy, Cancelled);
    PushKeepsActivation(d.(status := Cancelled), PostDeployCommands, PhaseFailed);
  }

  lemma CommandIsQuiet(s: State, ok: bool)
    requires s.job.Deploying? && s.job.pc.Execute?
    requires s.job.local.status != Completed && s.job.local.status != RolledBack
    ensures var t := StageStep(s, ok);
      t.job.Deploying? && Quiet(s, t) && QuietMove(s.job.pc, t.job.pc)
  {
    hide Upsert, Activated, FinishPhase;
    var d := s.job.local;
    var name := StageName(s.job.pc.stage);
    FinishedKeepsActivation(d, name, PhaseCompleted);
    FinishedKeepsActivation(d, name, PhaseFailed);
    PushKeepsActivation(Finished(d, name, PhaseFailed), PostDeployCommands, PhaseFailed);
  }

  lemma InstallIsQuiet(s: State, ok: bool)
    requires s.job.Deploying? && s.job.pc.Install?
    requires s.job.local.status != Completed && s.job.local.status != RolledBack
    ensures var t := StageStep(s, ok);
      t.job.Deploying? && Quiet(s, t) && QuietMove(s.job.pc, t.job.pc)
  {
    hide Upsert, Activated, FinishPhase;
    FinishedKeepsActivation(s.job.local, BuildCommands, PhaseCompleted);
    FinishedKeepsActivation(s.job.local, BuildCommands, PhaseFailed);
  }

  lemma EnterIsQuiet(s: State, ok: bool)
    requires s.job.Deploying? && (s.job.pc.Enter? || s.job.pc.Republish?)
    requires s.job.local.status != Completed && s.job.local.status != RolledBack
    ensures var t := StageStep(s, ok);
      t.job.Deploying? && Quiet(s, t) && QuietMove(s.job.pc, t.job.pc)
  {
    hide Upsert, Activated;
    var d := s.job.local;
    if s.job.pc.Enter? {
      var name := StageName(s.job.pc.stage);
      PushKeepsActivation(d, name, PhaseRunning);
      PushKeepsActivation(d, name, PhaseSkipped);
      PushKeepsActivation(Pushed(d, name, PhaseRunning), PostDeployCommands, PhaseFailed);
    }
  }

  /** The steps of the main line that change nothing but records. */
  predicate IsQuiet(s: State, ok: bool)
    requires s.job.Deploying? && InMain(s.job.pc)
  {
    match s.job.pc
    case Fetch => true
    case Resolve => true
    case Checkout => true
    case Manifest => true
    case Workspace => true
    case Register => true
    case Publish => true
    case Health => true
    case Processes(_) => true
    case Complete => true
    case Drained => true
    case Probe => !ok
    case Activate => !ok
    case EntryPoint => !ok
    case Clone => !ok
    case _ => false
  }

  lemma PreparationIsQuiet(s: State, ok: bool)
    requires s.job.Deploying? && InMain(s.job.pc) && IsQuiet(s, ok) && Rank(s.job.pc) < 14
    requires s.job.local.status != RolledBack && (s.job.local.status == Completed <==> Done(s.job.pc))
    ensures var t := MainStep(s, ok);
      t.job.Deploying? && Quiet(s, t) && QuietMove(s.job.pc, t.job.pc)
      && (Rank(s.job.pc) <= 20 || Done(t.job.pc))
  {
    hide Upsert, Activated, Expired, ChoosePort, PortOf, AfterReady;
    var d := s.job.local;
    PushKeepsActivation(d, Source, PhaseCompleted);
    PushKeepsActivation(d, CheckedOut, PhaseCompleted);
    PushKeepsActivation(d, ManifestSync, PhaseCompleted);
  }

  lemma ValidationIsQuiet(s: State, ok: bool)
    requires s.job.Deploying? && InMain(s.job.pc) && IsQuiet(s, ok) && Rank(s.job.pc) >= 14
    requires s.job.local.status != RolledBack && (s.job.local.status == Completed <==> Done(s.job.pc))
    ensures var t := MainStep(s, ok);
      t.job.Deploying? && Quiet(s, t) && QuietMove(s.job.pc, t.job.pc)
      && (Rank(s.job.pc) <= 20 || Done(t.job.pc))
  {
    hide Upsert, Activated, Expired, ChoosePort, PortOf, AfterReady;
    var d := s.job.local;
    PushKeepsActivation(d, HealthCheck, PhaseCompleted);
    PushKeepsActivation(d, HealthCheck, PhaseFailed);
    PushKeepsActivation(d, ProcessUnits, PhaseFailed);
    StatusKeepsActivation(d, true, Completed);
  }

  lemma LoudStepKeepsShape(s: State, ok: bool)
    requires s.job.Deploying? && InMain(s.job.pc) && !IsQuiet(s, ok) && Shaped(s)
    requires !s.job.pc.Switch? && !s.job.pc.Drain?
    ensures Shaped(MainStep(s, ok))
  {
    hide PreviousNode;
    hide Fresh;
    hide Upsert;
    hide Expired;
  }

  lemma SwitchKeepsShape(s: State, ok: bool)
    requires s.job.Deploying? && s.job.pc.Switch? && Shaped(s)
    ensures Shaped(MainStep(s, ok))
  {
    hide PreviousNode;
    hide Fresh;
  }

  lemma DrainKeepsShape(s: State, ok: bool)
    requires s.job.Deploying? && s.job.pc.Drain? && Shaped(s)
    ensures Shaped(MainStep(s, ok))
  {
    hide PreviousNode;
    hide Fresh;
  }

  lemma DeployStepKeepsShape(s: State, ok: bool)
    requires s.job.Deploying? && Shaped(s)
    ensures Shaped(DeployStep(s, ok))
  {
    hide PreviousNode;
    hide Fresh;
    hide Progress, Undoing, Aborting, MainStep, StageStep, UndoStepOf, AbortStepOf, Quiet, QuietMove;
    var pc := s.job.pc;
    if pc.Undo? {
      UndoKeepsShape(s);
    } else if pc.Abort? {
      AbortKeepsShape(s);
    } else if InStage(pc) {
      if pc.Check? {
        CheckIsQuiet(s, ok);
      } else if pc.Guard? {
        GuardIsQuiet(s, ok);
      } else if pc.Execute? {
        CommandIsQuiet(s, ok);
      } else if pc.Install? {
        InstallIsQuiet(s, ok);
      } else {
        EnterIsQuiet(s, ok);
      }
      QuietStepKeepsShape(s, StageStep(s, ok));
    } else if IsQuiet(s, ok) {
      if Rank(pc) < 14 { PreparationIsQuiet(s, ok); } else { ValidationIsQuiet(s, ok); }
      QuietStepKeepsShape(s, MainStep(s, ok));
    } else if pc.Switch? {
      SwitchKeepsShape(s, ok);
    } else if pc.Drain? {
      DrainKeepsShape(s, ok);
    } else {
      LoudStepKeepsShape(s, ok);
    }
  }

  lemma UnitRemoved(running: map<Unit, Port>, d: Deployment)
    requires d.unit.Some? ==> d.unit.value !in running
    ensures WithUnit(running, d) - (if d.unit.Some? then {d.unit.value} else {}) == running
  {
  }

  lemma UndoLinkKeepsShape(s: State)
    requires s.job.Deploying? && s.job.pc.Undo? && s.job.pc.undo in {UndoActivation, UndoCurrent, UndoDirectory}
    requires Shaped(s)
    ensures Shaped(UndoStepOf(s))
  {
    hide PreviousNode, Upsert, ChoosePort, Progress, Aborting, RollingForward, PortOf, Activated;
  }

  lemma UndoNodeKeepsShape(s: State)
    requires s.job.Deploying? && s.job.pc.Undo? && s.job.pc.undo in {UndoUpstream, UndoUnit, UndoRecord}
    requires Shaped(s)
    ensures Shaped(UndoStepOf(s))
  {
    hide PreviousNode, Upsert, ChoosePort, Progress, Aborting, RollingForward, PortOf;
    UnitRemoved(s.job.origin.running, s.job.local);
  }

  lemma UndoKeepsShape(s: State)
    requires s.job.Deploying? && s.job.pc.Undo? && Shaped(s)
    ensures Shaped(UndoStepOf(s))
  {
    hide Shaped, UndoStepOf;
    match s.job.pc.undo
    case UndoUpstream => UndoNodeKeepsShape(s);
    case UndoUnit => UndoNodeKeepsShape(s);
    case UndoRecord => UndoNodeKeepsShape(s);
    case _ => UndoLinkKeepsShape(s);
  }

  lemma AbortFilesKeepShape(s: State)
    requires s.job.Deploying? && s.job.pc.Abort? && s.job.pc.abort in {AbortActivation, AbortDirectory, AbortRecord}
    requires Shaped(s)
    ensures Shaped(AbortStepOf(s))
  {
    hide PreviousNode, Upsert, ChoosePort, Activated, Progress, Undoing, RollingForward, PortOf;
  }

  lemma AbortNodeKeepsShape(s: State)
    requires s.job.Deploying? && s.job.pc.Abort? && s.job.pc.abort in {AbortUpstream, AbortUnit}
    requires Shaped(s)
    ensures Shaped(AbortStepOf(s))
  {
    hide PreviousNode, Upsert, ChoosePort, Activated, Progress, Undoing, RollingForward, PortOf;
    UnitRemoved(s.job.origin.running, s.job.local);
  }

  lemma AbortKeepsShape(s: State)
    requires s.job.Deploying? && s.job.pc.Abort? && Shaped(s)
    ensures Shaped(AbortStepOf(s))
  {
    hide Shaped, AbortStepOf;
    match s.job.pc.abort
    case AbortUpstream => AbortNodeKeepsShape(s);
    case AbortUnit => AbortNodeKeepsShape(s);
    case _ => AbortFilesKeepShape(s);
  }

  predicate TurnsBack(rpc: RollbackPc) {
    rpc.Reactivate? || rpc.ResetUpstream? || rpc.StopTarget?
  }

  lemma RollbackTurnsBack(s: State, ok: bool)
    requires s.job.RollingBack? && Shaped(s) && TurnsBack(s.job.rpc)
    ensures Shaped(RollbackStep(s, ok))
  {
    hide RollbackTarget, ActiveNode, Upsert, Progress, Undoing, Aborting;
  }

  lemma RollbackGoesOn(s: State, ok: bool)
    requires s.job.RollingBack? && Shaped(s) && !TurnsBack(s.job.rpc)
    ensures Shaped(RollbackStep(s, ok))
  {
    hide RollbackTarget, ActiveNode, Upsert, Progress, Undoing, Aborting;
  }

  lemma RollbackKeepsShape(s: State, ok: bool)
    requires s.job.RollingBack? && Shaped(s)
    ensures Shaped(RollbackStep(s, ok))
  {
    hide Shaped, RollbackStep;
    if TurnsBack(s.job.rpc) { RollbackTurnsBack(s, ok); } else { RollbackGoesOn(s, ok); }
  }

  // ----- preservation of the list -----

  /** `t` is what a step of a deploy left: the same list, or the deploy's own record `d` written back. */
  ghost predicate Written(s: State, t: State, d: Option<Deployment>)
    requires s.job.Deploying?
  {
    && t.requests == s.requests
    && t.world.deployments == (if d.Some? then Upsert(s.world.deployments, d.value) else s.world.deployments)
    && (t.job.Idle? || (t.job.Deploying? && t.job.origin == s.job.origin && t.job.local.id == s.job.local.id))
    && (t.job.Deploying? && Done(s.job.pc) ==>
          Done(t.job.pc) && t.job.local.unit == s.job.local.unit && t.job.local.port == s.job.local.port)
    && (d.Some? ==>
          && d.value.id == s.job.local.id && Proper(d.value) && d.value.status != RolledBack
          && (d.value.status == Completed ==>
                t.job.Deploying? && Done(t.job.pc)
                && d.value.unit == t.job.local.unit && d.value.port == t.job.local.port))
  }

  /** Which record, if any, a step of a deploy writes. */
  function RecordWritten(s: State, ok: bool): Option<Deployment>
    requires s.job.Deploying?
  {
    var config, d, pc := s.job.config, s.job.local, s.job.pc;
    match pc
    case Fetch => if ok then Some(Pushed(d, Source, PhaseCompleted)) else None
    case Checkout => if ok then Some(Pushed(d, CheckedOut, PhaseCompleted)) else None
    case Manifest => if ok && config.manifest then Some(Pushed(d, ManifestSync, PhaseCompleted)) else None
    case Check(_) => if d.id in s.world.markers then Some(d.(status := Cancelled)) else None
    case Guard(_, _) => if d.id in s.world.markers then Some(d.(status := Cancelled)) else None
    case Enter(stage) =>
      if stage.Build? && config.build.BuildDependencies? then Some(Pushed(d, BuildCommands, PhaseRunning))
      else if stage.Build? && config.build.NoBuild? then None
      else Some(Pushed(d, StageName(stage), if Commands(config, stage) == 0 then PhaseSkipped else PhaseRunning))
    case Execute(stage, left) =>
      if !ok then Some(Finished(d, StageName(stage), PhaseFailed))
      else if left > 1 then None
      else Some(Finished(d, StageName(stage), PhaseCompleted))
    case Install => if ok then None else Some(Finished(d, BuildCommands, PhaseFailed))
    case Republish => Some(d)
    case Register => Some(d)
    case Publish => Some(d)
    case Health => if ok then Some(Pushed(d, HealthCheck, PhaseCompleted)) else None
    case Complete => Some(d.(healthy := true, status := Completed))
    case Drained => Some(d)
    case Undo(step, phase, rolledBack) =>
      if step.UndoRecord? then
        Some(d.(automaticRollback := rolledBack,
          status := if phase == Cancellation then Cancelled else if rolledBack then FailedRolledBack else Failed))
      else None
    case Abort(step, restored) =>
      if step.AbortRecord? then
        Some(Pushed(d, WholeDeployment, PhaseFailed).(automaticRollback := restored,
          status := if d.id in s.world.markers then Cancelled else if restored then FailedRolledBack else Failed))
      else None
    case _ => None
  }

  lemma CheckWrites(s: State, ok: bool)
    requires s.job.Deploying? && (s.job.pc.Check? || s.job.pc.Guard?) && OwnRecord(s.job)
    ensures Written(s, StageStep(s, ok), RecordWritten(s, ok))
  {
    hide PreviousNode, Fresh, Upsert, FinishPhase;
  }

  lemma CommandWrites(s: State, ok: bool)
    requires s.job.Deploying? && InStage(s.job.pc) && !s.job.pc.Check? && !s.job.pc.Guard? && OwnRecord(s.job)
    ensures Written(s, StageStep(s, ok), RecordWritten(s, ok))
  {
    hide PreviousNode, Fresh, Upsert, FinishPhase;
  }

  lemma StageStepWrites(s: State, ok: bool)
    requires s.job.Deploying? && InStage(s.job.pc) && OwnRecord(s.job)
    ensures Written(s, StageStep(s, ok), RecordWritten(s, ok))
  {
    hide OwnRecord, Written, StageStep, RecordWritten;
    if s.job.pc.Check? || s.job.pc.Guard? { CheckWrites(s, ok); } else { CommandWrites(s, ok); }
  }

  lemma PreparationWrites(s: State, ok: bool)
    requires s.job.Deploying? && InMain(s.job.pc) && Rank(s.job.pc) < 14 && OwnRecord(s.job)
    ensures Written(s, MainStep(s, ok), RecordWritten(s, ok))
  {
    hide PreviousNode, Fresh, Upsert, ChoosePort;
  }

  lemma CompletionWrites(s: State, ok: bool)
    requires s.job.Deploying? && InMain(s.job.pc) && Rank(s.job.pc) >= 20 && OwnRecord(s.job)
    ensures Written(s, MainStep(s, ok), RecordWritten(s, ok))
  {
    hide PreviousNode, Fresh, Upsert, Expired, ChoosePort;
  }

  lemma ActivationWrites(s: State, ok: bool)
    requires s.job.Deploying? && InMain(s.job.pc) && 14 <= Rank(s.job.pc) < 20 && OwnRecord(s.job)
    ensures Written(s, MainStep(s, ok), RecordWritten(s, ok))
  {
    hide PreviousNode, Fresh, Upsert, Expired, ChoosePort;
  }

  lemma MainStepWrites(s: State, ok: bool)
    requires s.job.Deploying? && InMain(s.job.pc) && OwnRecord(s.job)
    ensures Written(s, MainStep(s, ok), RecordWritten(s, ok))
  {
    hide OwnRecord, Written, MainStep, RecordWritten;
    if Rank(s.job.pc) < 14 {
      PreparationWrites(s, ok);
    } else if Rank(s.job.pc) < 20 {
      ActivationWrites(s, ok);
    } else {
      CompletionWrites(s, ok);
    }
  }

  lemma FailureStepWrites(s: State, ok: bool)
    requires s.job.Deploying? && (s.job.pc.Undo? || s.job.pc.Abort?) && OwnRecord(s.job)
    ensures Written(s, DeployStep(s, ok), RecordWritten(s, ok))
  {
    hide PreviousNode, Fresh, Upsert;
  }

  /** Writing the running deploy's own record back. */
  lemma OwnRecordWritten(before: seq<Deployment>, ds: seq<Deployment>, own: Deployment, done: bool, d: Deployment)
    requires Records(ds) && OwnPlace(before, ds, own, done)
    requires d.id == own.id && Proper(d)
    ensures Has(ds, d.id) && Upsert(ds, d) == ds[|before| := d]
    ensures Upsert(ds, d)[..|before|] == ds[..|before|]
    ensures Records(Upsert(ds, d))
    ensures forall id :: Has(Upsert(ds, d), id) <==> Has(ds, id)
  {
    IndexAt(ds, |before|);
    UpsertInPlace(ds, d);
  }

  lemma WriteKeepsList(s: State, t: State, d: Option<Deployment>)
    requires s.job.Deploying? && Listed(s) && Written(s, t, d)
    ensures Listed(t)
  {
    if d.Some? {
      OwnRecordWritten(s.job.origin.deployments, s.world.deployments, s.job.local, Done(s.job.pc), d.value);
    }
  }

  lemma DeployStepKeepsList(s: State, ok: bool)
    requires s.job.Deploying? && Listed(s) && OwnRecord(s.job)
    ensures Listed(DeployStep(s, ok))
  {
    hide Listed, OwnRecord, Written, RecordWritten, StageStep, MainStep, UndoStepOf, AbortStepOf;
    if InStage(s.job.pc) {
      StageStepWrites(s, ok);
    } else if InMain(s.job.pc) {
      MainStepWrites(s, ok);
    } else {
      FailureStepWrites(s, ok);
    }
    WriteKeepsList(s, DeployStep(s, ok), RecordWritten(s, ok));
  }

  lemma RollbackWrites(s: State, ok: bool)
    requires s.job.RollingBack?
    ensures var t := RollbackStep(s, ok);
      && t.requests == s.requests
      && t.world.deployments ==
           (if s.job.rpc.WriteRollback?
            then Upsert(s.world.deployments, RollbackRecord(s.job.target, s.job.record, s.job.before))
            else s.world.deployments)
      && (t.job.Idle? || (t.job == s.job.(rpc := t.job.rpc) && !s.job.rpc.WriteRollback?))
  {
    hide Upsert;
  }

  lemma RollbackStepKeepsList(s: State, ok: bool)
    requires s.job.RollingBack? && Listed(s)
    ensures Listed(RollbackStep(s, ok))
  {
    hide RollbackStep;
    RollbackWrites(s, ok);
    if s.job.rpc.WriteRollback? {
      UpsertNew(s.world.deployments, RollbackRecord(s.job.target, s.job.record, s.job.before));
    }
  }

  /** What a cancellation can do to the world: add a marker, or turn one record into Cancelling. */
  lemma CancelEffect(s: State, e: Event)
    requires e.CancelRead? || e.CancelMark? || e.CancelWrite?
    ensures var t := CancelStep(s, e);
      && t.job == s.job
      && t.world == s.world.(deployments := t.world.deployments, markers := t.world.markers)
      && s.world.markers <= t.world.markers
  {
    hide Upsert;
  }

  lemma CancelKeepsShape(s: State, t: State)
    requires Shaped(s) && t.job == s.job
    requires t.world == s.world.(deployments := t.world.deployments, markers := t.world.markers)
    ensures Shaped(t)
  {
    hide PreviousNode, ActiveNode, RollbackTarget, Fresh, Activated, Restorable;
  }

  /** Writing a record that is not Completed in place of any other. */
  lemma DemotionKeepsRelated(before: seq<Deployment>, ds: seq<Deployment>, r: Deployment)
    requires Records(ds) && Has(ds, r.id) && Proper(r) && r.status == Cancelling
    requires |before| <= |ds| && Related(before, ds[..|before|])
    ensures |Upsert(ds, r)| == |ds| && Related(before, Upsert(ds, r)[..|before|])
    ensures forall i :: 0 <= i < |ds| ==> Upsert(ds, r)[i] == ds[i] || (Upsert(ds, r)[i] == r && ds[i].id == r.id)
  {
    UpsertInPlace(ds, r);
  }

  lemma RelatedLength(before: seq<Deployment>, after: seq<Deployment>)
    ensures Related(before, after) ==> |before| == |after| && after[..|before|] == after
  {
  }

  lemma DemotionKeepsOwnPlace(before: seq<Deployment>, ds: seq<Deployment>, own: Deployment, done: bool, r: Deployment)
    requires Records(ds) && Has(ds, r.id) && Proper(r) && r.status == Cancelling && OwnPlace(before, ds, own, done)
    ensures OwnPlace(before, Upsert(ds, r), own, done)
  {
    hide Related, Upsert, Has, Records;
    DemotionKeepsRelated(before, ds, r);
  }

  lemma CancelWriteKeepsList(s: State, k: nat)
    requires Listed(s) && k in s.requests && s.requests[k].marked
    ensures Listed(CancelStep(s, CancelWrite(k)))
  {
    hide Related, Upsert, Has, Records, OwnPlace;
    var ds := s.world.deployments;
    var r := s.requests[k].snapshot.(status := Cancelling);
    UpsertInPlace(ds, r);
    if s.job.Deploying? {
      DemotionKeepsOwnPlace(s.job.origin.deployments, ds, s.job.local, Done(s.job.pc), r);
    } else if s.job.RollingBack? {
      var before := s.job.origin.deployments;
      RelatedLength(before, ds);
      DemotionKeepsRelated(before, ds, r);
      assert Upsert(ds, r)[..|before|] == Upsert(ds, r);
    }
  }

  lemma CancelKeepsList(s: State, e: Event)
    requires Listed(s) && (e.CancelRead? || e.CancelMark? || e.CancelWrite?)
    ensures Listed(CancelStep(s, e))
  {
    if e.CancelWrite? && e.request in s.requests && s.requests[e.request].marked {
      CancelWriteKeepsList(s, e.request);
    }
  }

  lemma StartKeepsInv(s: State, e: Event)
    requires Inv(s) && (e.Deploy? || e.Rollback?)
    ensures Inv(Apply(s, e))
  {
    if e.Deploy? && s.job.Idle? && Fresh(s.world, e.id) {
      UpsertNew(s.world.deployments, NewRecord(s.world, e.id));
    }
  }

  lemma StepKeepsInv(s: State, e: Event)
    requires Inv(s)
    ensures Inv(Apply(s, e))
  {
    hide Listed, OwnRecord, Progress, Undoing, Aborting, RollingForward, DeployStep, RollbackStep, CancelStep;
    match e
    case Outcome(ok) =>
      if s.job.RollingBack? {
        RollbackKeepsShape(s, ok);
        RollbackStepKeepsList(s, ok);
      } else if s.job.Deploying? {
        DeployStepKeepsList(s, ok);
        DeployStepKeepsShape(s, ok);
      }
    case Deploy(_, _) => StartKeepsInv(s, e);
    case Rollback(_) => StartKeepsInv(s, e);
    case _ =>
      CancelEffect(s, e);
      CancelKeepsShape(s, CancelStep(s, e));
      CancelKeepsList(s, e);
  }

  lemma {:induction false} RunKeepsInv(s: State, events: seq<Event>)
    requires Inv(s)
    ensures Inv(Run(s, events))
    decreases |events|
  {
    if events != [] {
      RunKeepsInv(s, events[..|events| - 1]);
      StepKeepsInv(Run(s, events[..|events| - 1]), events[|events| - 1]);
    }
  }
}
