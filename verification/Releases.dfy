/**
 Deploy, rollback, pruning and cancellation of one application, as a step machine.

 A step is one access to shared state: a write of the deployment list, the check of a
 cancellation marker, a change of the release directories, of the `current` link, of a
 systemd unit or of the nginx upstream, or an external command.  `Apply` is deterministic;
 the event says what the environment answered.
 */
module Releases {
  import opened Results

  // ----- recorded state -----

  type Id = string

  type Port = nat

  /** `<root>/releases/<id>` */
  datatype Release = ReleaseDir(id: Id)

  /** `lumic-app-<application>-web-<id>.service` */
  datatype Unit = WebUnit(id: Id)

  datatype Status = Started | Cancelling | Cancelled | Completed | Failed | RolledBack | FailedRolledBack

  datatype PhaseStatus = PhaseRunning | PhaseCompleted | PhaseFailed | PhaseSkipped

  /** The source names phases by strings; each constructor stands for one of them. */
  datatype PhaseName =
    | Source | CheckedOut | ManifestSync | PreDeployCommands | BuildCommands | Migration | PostDeployCommands
    | PreActivation | NodeStart | NodeReadiness | Activation | NodeHandoff | HealthCheck | ProcessUnits
    | Cancellation | Draining | WholeDeployment | RollbackPhase

  datatype Phase = Phase(name: PhaseName, status: PhaseStatus)

  datatype Deployment = Deployment(
    id: Id,
    release: Release,
    status: Status,
    healthy: bool,
    previous: Option<Release>,
    phases: seq<Phase>,
    automaticRollback: bool,
    port: Option<Port>,
    unit: Option<Unit>)

  /** What survives between operations.  `running` maps a started unit to the port in its unit file. */
  datatype World = World(
    deployments: seq<Deployment>,
    directories: set<Release>,
    current: Option<Release>,
    running: map<Unit, Port>,
    upstream: Option<Port>,
    markers: set<Id>)

  // ----- configuration of one deploy, after the manifest of the revision was merged -----

  datatype Handoff = Handoff(primary: Port, secondary: Port, drainSeconds: nat) {
    predicate Valid() {
      primary != 0 && secondary != 0 && primary != secondary && drainSeconds <= 300
    }
  }

  datatype BuildKind = BuildCommand | BuildDependencies | NoBuild

  datatype Config = Config(
    handoff: Option<Handoff>,
    manifest: bool,
    preDeploy: nat,
    build: BuildKind,
    migrate: bool,
    postDeploy: nat,
    processes: nat,
    retention: nat)

  // ----- program counters -----

  datatype Stage = PreDeploy | Build | Migrate | PostDeploy

  datatype Boundary = AfterSource | AfterPreDeploy | AfterBuild | AfterMigrate | AfterHealth

  datatype UndoStep = UndoActivation | UndoUpstream | UndoUnit | UndoRecord | UndoCurrent | UndoDirectory

  datatype AbortStep = AbortActivation | AbortUpstream | AbortUnit | AbortDirectory | AbortRecord

  datatype Pc =
    | Fetch
    | Check(boundary: Boundary)
    | Resolve
    | Clone
    | Checkout
    | Manifest
    | Workspace
    | Enter(stage: Stage)
    | Guard(stage: Stage, left: nat)
    | Execute(stage: Stage, left: nat)
    | Install
    | Republish
    | EntryPoint
    | StartUnit
    | Register
    | Probe
    | Activate
    | Switch
    | Publish
    | Health
    | Processes(left: nat)
    | Complete
    | Drain
    | Drained
    | Prune
    | Undo(undo: UndoStep, phase: PhaseName, rolledBack: bool)   // a release that failed validation
    | Abort(abort: AbortStep, restored: bool)                 // a release that failed preparation

  datatype RollbackPc =
    | StartTarget
    | ProbeTarget
    | ActivateTarget
    | SwitchTarget
    | HealthTarget
    | DrainLive
    | WriteRollback
    | Reactivate(reset: bool)
    | ResetUpstream
    | StopTarget

  /**
   The running operation; the application lock admits one at a time.  `origin` is the world in
   which the operation began; no step reads it, it exists for stating properties.
   */
  datatype Job =
    | Idle
    | Deploying(origin: World, config: Config, local: Deployment, node: Option<Deployment>, pc: Pc)
    | RollingBack(origin: World, before: Option<Release>, record: Id, target: Deployment, live: Option<Deployment>,
        rpc: RollbackPc)

  /** A cancellation in flight: the record as it was read, and whether its marker was written. */
  datatype Request = Request(snapshot: Deployment, marked: bool)

  datatype State = State(world: World, job: Job, requests: map<nat, Request>)

  datatype Event =
    | Deploy(id: Id, config: Config)
    | Rollback(id: Id)
    | Outcome(ok: bool)          // the running operation takes one step; `ok` is the environment's answer
    | CancelRead(request: nat, id: Id)
    | CancelMark(request: nat)
    | CancelWrite(request: nat)

  // ----- the deployment list -----

  /** First index of `id`, or the length of the list. */
  function IndexOf(ds: seq<Deployment>, id: Id): (k: nat)
    ensures k <= |ds|
    ensures k < |ds| ==> ds[k].id == id
    ensures forall i :: 0 <= i < k ==> ds[i].id != id
  {
    if ds == [] then 0
    else if ds[0].id == id then 0
    else 1 + IndexOf(ds[1..], id)
  }

  predicate Has(ds: seq<Deployment>, id: Id) {
    IndexOf(ds, id) < |ds|
  }

  function Find(ds: seq<Deployment>, id: Id): Option<Deployment> {
    var k := IndexOf(ds, id);
    if k < |ds| then Some(ds[k]) else None
  }

  function Upsert(ds: seq<Deployment>, d: Deployment): seq<Deployment> {
    var k := IndexOf(ds, d.id);
    if k < |ds| then ds[k := d] else ds + [d]
  }

  /** The newest record that satisfies `p`. */
  function Newest(ds: seq<Deployment>, p: Deployment -> bool): (r: Option<Deployment>)
    ensures r.Some? ==> r.value in ds && p(r.value)
    ensures r.None? ==> forall d :: d in ds ==> !p(d)
  {
    if ds == [] then None
    else if p(ds[|ds| - 1]) then Some(ds[|ds| - 1])
    else Newest(ds[..|ds| - 1], p)
  }

  /** The Node release that `current` names, as `deploy_revision` looks it up. */
  function PreviousNode(w: World): Option<Deployment> {
    if w.current.None? then None
    else Newest(w.deployments, (r: Deployment) =>
      r.status == Completed && r.release == w.current.value && r.unit.Some?)
  }

  /** The Node release that `current` names, as `rollback` looks it up. */
  function ActiveNode(w: World): Option<Deployment> {
    if w.current.None? then None
    else Newest(w.deployments, (r: Deployment) =>
      r.status == Completed && r.release == w.current.value && r.unit.Some? && r.port.Some?)
  }

  predicate IsCandidate(w: World, r: Deployment) {
    r.status == Completed && w.current != Some(r.release) && r.release in w.directories
  }

  function Candidates(w: World): Deployment -> bool {
    r => IsCandidate(w, r)
  }

  /** The newest Completed release that is not live and still on disk. */
  function RollbackTarget(w: World): Option<Deployment> {
    Newest(w.deployments, Candidates(w))
  }

  function CompletedOf(ds: seq<Deployment>): (cs: seq<Deployment>)
    ensures forall d :: d in cs <==> d in ds && d.status == Completed
  {
    if ds == [] then []
    else
      var front, last := CompletedOf(ds[..|ds| - 1]), ds[|ds| - 1];
      if last.status == Completed then front + [last] else front
  }

  /** The releases of these records, save the live one. */
  function NotLive(cs: seq<Deployment>, current: Option<Release>): set<Release> {
    set d | d in cs && current != Some(d.release) :: d.release
  }

  /** Records older than the newest `retention`. */
  function Older(cs: seq<Deployment>, retention: nat): seq<Deployment> {
    if |cs| <= retention then [] else cs[..|cs| - retention]
  }

  /** Releases `prune_releases` may delete: all Completed ones but the newest `retention`, and not the live one. */
  function Expired(w: World, retention: nat): set<Release> {
    NotLive(Older(CompletedOf(w.deployments), retention), w.current)
  }

  // ----- small pieces of a deploy -----

  function Pushed(d: Deployment, name: PhaseName, status: PhaseStatus): Deployment {
    d.(phases := d.phases + [Phase(name, status)])
  }

  /** Closes the last running phase of that name, if there is one. */
  function FinishPhase(phases: seq<Phase>, name: PhaseName, status: PhaseStatus): seq<Phase> {
    if phases == [] then []
    else
      var last := |phases| - 1;
      if phases[last] == Phase(name, PhaseRunning) then phases[..last] + [Phase(name, status)]
      else FinishPhase(phases[..last], name, status) + [phases[last]]
  }

  function Finished(d: Deployment, name: PhaseName, status: PhaseStatus): Deployment {
    d.(phases := FinishPhase(d.phases, name, status))
  }

  const ACTIVATION := Phase(Activation, PhaseCompleted)

  predicate Activated(d: Deployment) {
    ACTIVATION in d.phases
  }

  function ChoosePort(handoff: Handoff, previous: Option<Port>): Port {
    if previous == Some(handoff.primary) then handoff.secondary else handoff.primary
  }

  function PortOf(node: Option<Deployment>): Option<Port> {
    if node.Some? then node.value.port else None
  }

  function StageName(stage: Stage): PhaseName {
    match stage
    case PreDeploy => PreDeployCommands
    case Build => BuildCommands
    case Migrate => Migration
    case PostDeploy => PostDeployCommands
  }

  function Commands(config: Config, stage: Stage): nat {
    match stage
    case PreDeploy => config.preDeploy
    case Build => if config.build.BuildCommand? then 1 else 0
    case Migrate => if config.migrate then 1 else 0
    case PostDeploy => config.postDeploy
  }

  function AfterStage(config: Config, stage: Stage): Pc {
    match stage
    case PreDeploy => Check(AfterPreDeploy)
    case Build => Republish
    case Migrate => Check(AfterMigrate)
    case PostDeploy => Processes(config.processes)
  }

  function AfterCheck(boundary: Boundary): Pc {
    match boundary
    case AfterSource => Resolve
    case AfterPreDeploy => Enter(Build)
    case AfterBuild => Enter(Migrate)
    case AfterMigrate => EntryPoint
    case AfterHealth => Enter(PostDeploy)
  }

  function NewRecord(w: World, id: Id): Deployment {
    Deployment(id, ReleaseDir(id), Started, false, w.current, [], false, None, None)
  }

  /** Identifiers are made of the time and the process id; they are assumed to be unused. */
  predicate Fresh(w: World, id: Id) {
    && !Has(w.deployments, id)
    && ReleaseDir(id) !in w.directories
    && w.current != Some(ReleaseDir(id))
    && WebUnit(id) !in w.running
  }

  // ----- steps of a deploy -----

  /** The local record and the program counter move on; nothing shared changes. */
  function Local(s: State, d: Deployment, pc: Pc): State
    requires s.job.Deploying?
  {
    s.(job := s.job.(local := d, pc := pc))
  }

  /** The local record is written to the deployment list as well. */
  function Save(s: State, d: Deployment, pc: Pc): State
    requires s.job.Deploying?
  {
    s.(world := s.world.(deployments := Upsert(s.world.deployments, d)), job := s.job.(local := d, pc := pc))
  }

  function Aborted(s: State, d: Deployment): State
    requires s.job.Deploying?
  {
    Local(s, d, Abort(AbortActivation, false))
  }

  function Rejected(s: State, d: Deployment, phase: PhaseName): State
    requires s.job.Deploying?
  {
    Local(s, Pushed(d, phase, PhaseFailed), Undo(UndoActivation, phase, false))
  }

  /** An error inside a workflow stage: `post_deploy` runs after activation, the others before. */
  function StageFailed(s: State, d: Deployment, stage: Stage): State
    requires s.job.Deploying?
  {
    if stage.PostDeploy? then Rejected(s, d, PostDeployCommands) else Aborted(s, d)
  }

  function AfterReady(config: Config): Pc {
    if config.handoff.Some? then StartUnit else Activate
  }

  /** The workflow stages and the cancellation checks. */
  function StageStep(s: State, ok: bool): State
    requires s.job.Deploying?
    requires var pc := s.job.pc; pc.Check? || pc.Enter? || pc.Guard? || pc.Execute? || pc.Install? || pc.Republish?
  {
    var config, d := s.job.config, s.job.local;
    match s.job.pc
    case Check(boundary) =>
      if d.id in s.world.markers then
        var d' := d.(status := Cancelled);
        if boundary.AfterHealth? then Rejected(Save(s, d', s.job.pc), d', Cancellation)
        else Aborted(Save(s, d', s.job.pc), d')
      else Local(s, d, AfterCheck(boundary))
    case Enter(stage) =>
      if stage.Build? && config.build.BuildDependencies? then
        Save(s, Pushed(d, BuildCommands, PhaseRunning), Install)
      else if stage.Build? && config.build.NoBuild? then
        Local(s, Pushed(d, BuildCommands, PhaseSkipped), Republish)
      else if Commands(config, stage) == 0 then
        Save(s, Pushed(d, StageName(stage), PhaseSkipped), AfterStage(config, stage))
      else
        var d' := Pushed(d, StageName(stage), PhaseRunning);
        var s' := Save(s, d', Guard(stage, Commands(config, stage)));
        if ok then s' else StageFailed(s', d', stage)
    case Guard(stage, left) =>
      if d.id in s.world.markers then
        var d' := d.(status := Cancelled);
        StageFailed(Save(s, d', s.job.pc), d', stage)
      else Local(s, d, Execute(stage, left))
    case Execute(stage, left) =>
      if !ok then
        var d' := Finished(d, StageName(stage), PhaseFailed);
        StageFailed(Save(s, d', s.job.pc), d', stage)
      else if left > 1 then Local(s, d, Guard(stage, left - 1))
      else Save(s, Finished(d, StageName(stage), PhaseCompleted), AfterStage(config, stage))
    case Install =>
      if ok then Local(s, Finished(d, BuildCommands, PhaseCompleted), Republish)
      else
        var d' := Finished(d, BuildCommands, PhaseFailed);
        Aborted(Save(s, d', s.job.pc), d')
    case Republish => Save(s, d, Check(AfterBuild))
  }

  /** The rest of `prepare_release` and of the successful branch of `deploy_revision`. */
  function MainStep(s: State, ok: bool): State
    requires s.job.Deploying?
    requires var pc := s.job.pc;
      !(pc.Check? || pc.Enter? || pc.Guard? || pc.Execute? || pc.Install? || pc.Republish? || pc.Undo? || pc.Abort?)
  {
    var Deploying(_, config, d, node, pc) := s.job;
    var w := s.world;
    match pc
    case Fetch => if ok then Save(s, Pushed(d, Source, PhaseCompleted), Check(AfterSource)) else Aborted(s, d)
    case Resolve => if ok then Local(s, d, Clone) else Aborted(s, d)
    case Clone =>
      if ok then Local(s.(world := w.(directories := w.directories + {d.release})), d, Checkout) else Aborted(s, d)
    case Checkout => if ok then Save(s, Pushed(d, CheckedOut, PhaseCompleted), Manifest) else Aborted(s, d)
    case Manifest =>
      if !ok then Aborted(s, d)
      else if config.manifest then Save(s, Pushed(d, ManifestSync, PhaseCompleted), Workspace)
      else Local(s, d, Workspace)
    case Workspace => if ok then Local(s, d, Enter(PreDeploy)) else Aborted(s, d)
    case EntryPoint =>
      if ok then Local(s, Pushed(d, PreActivation, PhaseCompleted), AfterReady(config)) else Aborted(s, d)
    case StartUnit =>
      if ok && config.handoff.Some? && config.handoff.value.Valid() then
        var port := ChoosePort(config.handoff.value, PortOf(node));
        Local(s.(world := w.(running := w.running[WebUnit(d.id) := port])),
          Pushed(d.(port := Some(port), unit := Some(WebUnit(d.id))), NodeStart, PhaseCompleted), Register)
      else Aborted(s, d)
    case Register => Save(s, d, Probe)
    case Probe => if ok then Local(s, Pushed(d, NodeReadiness, PhaseCompleted), Activate) else Aborted(s, d)
    case Activate =>
      if ok then
        Local(s.(world := w.(current := Some(d.release))), Pushed(d, Activation, PhaseCompleted),
          if d.port.Some? then Switch else Publish)
      else Aborted(s, d)
    case Switch =>
      if ok then
        Local(s.(world := w.(upstream := d.port)), Pushed(d, NodeHandoff, PhaseCompleted), Publish)
      else Aborted(s, d)
    case Publish => Save(s, d, Health)
    case Health =>
      if ok then Save(s, Pushed(d, HealthCheck, PhaseCompleted), Check(AfterHealth)) else Rejected(s, d, HealthCheck)
    case Processes(left) =>
      if left == 0 then Local(s, d, Complete)
      else if ok then Local(s, d, Processes(left - 1))
      else Rejected(s, d, ProcessUnits)
    case Complete => Save(s, d.(healthy := true, status := Completed), Drain)
    case Drain =>
      if config.handoff.Some? && node.Some? && node.value.unit.Some? then
        if ok then
          Local(s.(world := w.(running := w.running - {node.value.unit.value})),
            Pushed(d, Draining, PhaseCompleted), Drained)
        else Local(s, Pushed(d, Draining, PhaseFailed), Drained)
      else Local(s, Pushed(d, Draining, PhaseSkipped), Drained)
    case Drained => Save(s, d, Prune)
    case Prune => s.(world := w.(directories := w.directories - Expired(w, config.retention)), job := Idle)
  }

  /** The validation-failure branch of `deploy_revision`. */
  function UndoStepOf(s: State): State
    requires s.job.Deploying? && s.job.pc.Undo?
  {
    var Deploying(_, config, d, node, pc) := s.job;
    var w := s.world;
    var Undo(step, phase, rolledBack) := pc;
    match step
    case UndoActivation =>
      if d.previous.Some? && d.previous.value in w.directories then
        Local(s.(world := w.(current := d.previous)), d, Undo(UndoUpstream, phase, true))
      else Local(s, d, Undo(UndoUpstream, phase, false))
    case UndoUpstream =>
      var next := Undo(UndoUnit, phase, rolledBack);
      if d.unit.Some? && PortOf(node).Some? then Local(s.(world := w.(upstream := PortOf(node))), d, next)
      else Local(s, d, next)
    case UndoUnit =>
      var next := Undo(UndoRecord, phase, rolledBack);
      if d.unit.Some? then Local(s.(world := w.(running := w.running - {d.unit.value})), d, next)
      else Local(s, d, next)
    case UndoRecord =>
      Save(s, d.(automaticRollback := rolledBack,
        status := if phase == Cancellation then Cancelled else if rolledBack then FailedRolledBack else Failed),
        Undo(UndoCurrent, phase, rolledBack))
    case UndoCurrent =>
      var next := Undo(UndoDirectory, phase, rolledBack);
      if rolledBack then Local(s, d, next) else Local(s.(world := w.(current := None)), d, next)
    case UndoDirectory => s.(world := w.(directories := w.directories - {d.release}), job := Idle)
  }

  /** The preparation-failure branch of `deploy_revision`. */
  function AbortStepOf(s: State): State
    requires s.job.Deploying? && s.job.pc.Abort?
  {
    var Deploying(_, config, d, node, pc) := s.job;
    var w := s.world;
    var Abort(step, restored) := pc;
    match step
    case AbortActivation =>
      if Activated(d) && d.previous.Some? && d.previous.value in w.directories then
        Local(s.(world := w.(current := d.previous)), d, Abort(AbortUpstream, true))
      else Local(s, d, Abort(AbortUpstream, false))
    case AbortUpstream =>
      var next := Abort(AbortUnit, restored);
      if d.unit.Some? && PortOf(node).Some? then Local(s.(world := w.(upstream := PortOf(node))), d, next)
      else Local(s, d, next)
    case AbortUnit =>
      var next := Abort(AbortDirectory, restored);
      if d.unit.Some? then Local(s.(world := w.(running := w.running - {d.unit.value})), d, next)
      else Local(s, d, next)
    case AbortDirectory =>
      Local(s.(world := w.(directories := w.directories - {d.release})), d, Abort(AbortRecord, restored))
    case AbortRecord =>
      var status := if d.id in w.markers then Cancelled else if restored then FailedRolledBack else Failed;
      Save(s, Pushed(d, WholeDeployment, PhaseFailed).(automaticRollback := restored, status := status),
        pc).(job := Idle)
  }

  function DeployStep(s: State, ok: bool): State
    requires s.job.Deploying?
  {
    match s.job.pc
    case Undo(_, _, _) => UndoStepOf(s)
    case Abort(_, _) => AbortStepOf(s)
    case Check(_) => StageStep(s, ok)
    case Enter(_) => StageStep(s, ok)
    case Guard(_, _) => StageStep(s, ok)
    case Execute(_, _) => StageStep(s, ok)
    case Install => StageStep(s, ok)
    case Republish => StageStep(s, ok)
    case _ => MainStep(s, ok)
  }

  // ----- steps of a rollback -----

  function AtRollback(s: State, w: World, rpc: RollbackPc): State
    requires s.job.RollingBack?
  {
    s.(world := w, job := s.job.(rpc := rpc))
  }

  predicate IsNode(d: Deployment) {
    d.unit.Some? && d.port.Some?
  }

  /** The record a successful rollback appends. */
  function RollbackRecord(target: Deployment, id: Id, before: Option<Release>): Deployment {
    target.(id := id, status := RolledBack, previous := before, automaticRollback := false,
      phases := [Phase(RollbackPhase, PhaseCompleted)])
  }

  function RollbackStep(s: State, ok: bool): State
    requires s.job.RollingBack?
  {
    var RollingBack(_, before, record, target, live, rpc) := s.job;
    var w := s.world;
    match rpc
    case StartTarget =>
      if !IsNode(target) then AtRollback(s, w, ActivateTarget)
      else if ok then AtRollback(s, w.(running := w.running[target.unit.value := target.port.value]), ProbeTarget)
      else s.(job := Idle)
    case ProbeTarget => AtRollback(s, w, if ok then ActivateTarget else StopTarget)
    case ActivateTarget =>
      if ok then
        AtRollback(s, w.(current := Some(target.release)), if IsNode(target) then SwitchTarget else WriteRollback)
      else s.(job := Idle)
    case SwitchTarget =>
      if ok then AtRollback(s, w.(upstream := target.port), HealthTarget) else AtRollback(s, w, Reactivate(false))
    case HealthTarget => AtRollback(s, w, if ok then DrainLive else Reactivate(true))
    case DrainLive =>
      if live.Some? && live.value.unit.Some? && live.value.unit != target.unit then
        if ok then AtRollback(s, w.(running := w.running - {live.value.unit.value}), WriteRollback)
        else s.(job := Idle)
      else AtRollback(s, w, WriteRollback)
    case WriteRollback =>
      s.(world := w.(deployments := Upsert(w.deployments, RollbackRecord(target, record, before))), job := Idle)
    case Reactivate(reset) =>
      AtRollback(s, if before.Some? then w.(current := before) else w,
        if reset then ResetUpstream else StopTarget)
    case ResetUpstream =>
      AtRollback(s, if PortOf(live).Some? then w.(upstream := PortOf(live)) else w, StopTarget)
    case StopTarget =>
      s.(world := if target.unit.Some? then w.(running := w.running - {target.unit.value}) else w, job := Idle)
  }

  // ----- cancellation: read the record, write the marker, write the record back -----

  predicate CanCancel(s: State, request: nat, id: Id) {
    request !in s.requests && Find(s.world.deployments, id).Some?
      && Find(s.world.deployments, id).value.status == Started
  }

  function CancelStep(s: State, e: Event): State
    requires e.CancelRead? || e.CancelMark? || e.CancelWrite?
  {
    match e
    case CancelRead(k, id) =>
      if CanCancel(s, k, id) then
        s.(requests := s.requests[k := Request(Find(s.world.deployments, id).value, false)])
      else s
    case CancelMark(k) =>
      if k in s.requests then
        s.(world := s.world.(markers := s.world.markers + {s.requests[k].snapshot.id}),
          requests := s.requests[k := s.requests[k].(marked := true)])
      else s
    case CancelWrite(k) =>
      if k in s.requests && s.requests[k].marked then
        s.(world := s.world.(deployments :=
            Upsert(s.world.deployments, s.requests[k].snapshot.(status := Cancelling))),
          requests := s.requests - {k})
      else s
  }

  // ----- runs -----

  /** An event that the state refuses (lock taken, nothing to roll back to, not cancellable) changes nothing. */
  function Apply(s: State, e: Event): State {
    match e
    case Deploy(id, config) =>
      if s.job.Idle? && Fresh(s.world, id) then
        var d := NewRecord(s.world, id);
        State(s.world.(deployments := Upsert(s.world.deployments, d)),
          Deploying(s.world, config, d, PreviousNode(s.world), Fetch), s.requests)
      else s
    case Rollback(id) =>
      if s.job.Idle? && RollbackTarget(s.world).Some? && !Has(s.world.deployments, id) then
        s.(job := RollingBack(s.world, s.world.current, id, RollbackTarget(s.world).value, ActiveNode(s.world),
          StartTarget))
      else s
    case Outcome(ok) =>
      if s.job.Deploying? then DeployStep(s, ok)
      else if s.job.RollingBack? then RollbackStep(s, ok)
      else s
    case _ => CancelStep(s, e)
  }

  function Run(s: State, events: seq<Event>): State
    decreases |events|
  {
    if events == [] then s else Apply(Run(s, events[..|events| - 1]), events[|events| - 1])
  }

  const EMPTY := State(World([], {}, None, map[], None, {}), Idle, map[])
}
