/**
 The deploy and rollback procedures as they are written, over one application's mutable state.

 Every access to shared state is one method below; it performs the effect, records the event the
 step machine takes, and then lets cancellations of other processes happen.  `Valid` says that
 the object is in the state to which the recorded events lead, so every result about runs holds
 of every state these procedures pass through.
 */
module ReleaseService {
  import opened Results
  import opened Releases
  import opened ReleaseInvariant
  import opened ReleaseHistory
  import opened ReleaseRetention

  /** What `rollback` returns: its record, or an error, of which one is that there is no target. */
  datatype RollbackResult = NoTarget | RollbackFailed | Recorded(record: Deployment)

  lemma RunSnoc(s: State, events: seq<Event>, e: Event)
    ensures Run(s, events + [e]) == Apply(Run(s, events), e)
  {
    assert (events + [e])[..|events + [e]| - 1] == events;
  }

  /** Cancellations alone lead from `s` to `t`: they touch neither the running operation nor records of rollbacks. */
  ghost predicate OnlyCancelled(s: State, t: State) {
    && t.job == s.job
    && t.world.directories == s.world.directories && t.world.current == s.world.current
    && t.world.running == s.world.running && t.world.upstream == s.world.upstream
    && s.world.markers <= t.world.markers
    && forall id :: Calm(s, id) ==>
         Calm(t, id) && Find(t.world.deployments, id) == Find(s.world.deployments, id)
  }

  lemma NothingCancelled(s: State)
    ensures OnlyCancelled(s, s)
  {
  }

  lemma OneMoreCancelled(s: State, t: State, e: Event)
    requires Inv(t) && OnlyCancelled(s, t) && (e.CancelRead? || e.CancelMark? || e.CancelWrite?)
    ensures OnlyCancelled(s, Apply(t, e))
  {
    hide Shaped, CancelStep, Calm, Find;
    CancelEffect(t, e);
    forall id | Calm(s, id)
      ensures Calm(CancelStep(t, e), id)
        && Find(CancelStep(t, e).world.deployments, id) == Find(s.world.deployments, id)
    {
      CancelKeepsCalm(t, e, id);
    }
  }

  lemma RollbackIsStored(s: State)
    requires Inv(s) && s.job.RollingBack? && s.job.rpc.WriteRollback?
    ensures var t, target := Apply(s, Outcome(true)), s.job.target;
      && t.job.Idle? && t.requests == s.requests
      && t.world == s.world.(deployments := Upsert(s.world.deployments,
           target.(id := s.job.record, status := RolledBack, previous := s.job.before, automaticRollback := false,
             phases := [Phase(RollbackPhase, PhaseCompleted)])))
      && Calm(t, s.job.record)
      && Find(t.world.deployments, s.job.record) == Some(Deployment(s.job.record, target.release, RolledBack,
           target.healthy, s.job.before, [Phase(RollbackPhase, PhaseCompleted)], false, target.port, target.unit))
  {
    hide Upsert, Find, Related, RollbackTarget, ActiveNode;
    SuccessfulRollback(s, true);
    FindAfterUpsert(s.world.deployments, RollbackRecord(s.job.target, s.job.record, s.job.before), s.job.record);
  }

  class Service {
    var deployments: seq<Deployment>
    var directories: set<Release>
    var current: Option<Release>
    var running: map<Unit, Port>
    var upstream: Option<Port>
    var markers: set<Id>
    var requests: map<nat, Request>   // cancellations of other processes, read but not yet written
    ghost var job: Job
    ghost var start: State
    ghost var journal: seq<Event>

    function Now(): World
      reads this
    {
      World(deployments, directories, current, running, upstream, markers)
    }

    ghost function Snapshot(): State
      reads this
    {
      State(Now(), job, requests)
    }

    /** The state the next step of the running operation leads to. */
    ghost function Next(ok: bool): State
      reads this
    {
      Apply(Snapshot(), Outcome(ok))
    }

    ghost predicate Valid()
      reads this
    {
      Inv(start) && Snapshot() == Run(start, journal)
    }

    /** Between this state and an earlier one, other processes have at most cancelled. */
    ghost predicate Disturbed(s: State)
      reads this
    {
      OnlyCancelled(s, Snapshot())
    }

    constructor (s: State)
      requires Inv(s) && s.job.Idle?
      ensures Valid() && Snapshot() == s && journal == []
    {
      deployments, directories, current := s.world.deployments, s.world.directories, s.world.current;
      running, upstream, markers := s.world.running, s.world.upstream, s.world.markers;
      requests, job, start, journal := s.requests, s.job, s, [];
    }

    // ----- other processes -----

    method CancelRead(k: nat, id: Id)
      requires Valid()
      modifies `requests, `journal
      ensures Valid() && journal == old(journal) + [Event.CancelRead(k, id)]
      ensures Snapshot() == Apply(old(Snapshot()), Event.CancelRead(k, id))
    {
      hide Inv, Run;
      var stored := Find(deployments, id);
      if k !in requests && stored.Some? && stored.value.status == Started {
        requests := requests[k := Request(stored.value, false)];
      }
      RunSnoc(start, journal, Event.CancelRead(k, id));
      journal := journal + [Event.CancelRead(k, id)];
    }

    method CancelMark(k: nat)
      requires Valid()
      modifies `requests, `markers, `journal
      ensures Valid() && journal == old(journal) + [Event.CancelMark(k)]
      ensures Snapshot() == Apply(old(Snapshot()), Event.CancelMark(k))
    {
      hide Inv, Run;
      if k in requests {
        markers := markers + {requests[k].snapshot.id};
        requests := requests[k := requests[k].(marked := true)];
      }
      RunSnoc(start, journal, Event.CancelMark(k));
      journal := journal + [Event.CancelMark(k)];
    }

    method CancelWrite(k: nat)
      requires Valid()
      modifies `requests, `deployments, `journal
      ensures Valid() && journal == old(journal) + [Event.CancelWrite(k)]
      ensures Snapshot() == Apply(old(Snapshot()), Event.CancelWrite(k))
    {
      hide Inv, Run, Upsert;
      if k in requests && requests[k].marked {
        StoreRecord(requests[k].snapshot.(status := Cancelling));
        requests := requests - {k};
      }
      RunSnoc(start, journal, Event.CancelWrite(k));
      journal := journal + [Event.CancelWrite(k)];
    }

    /** Any number of cancellation steps of other processes. */
    method Interfere()
      requires Valid()
      modifies `requests, `markers, `deployments, `journal
      ensures Valid() && Disturbed(old(Snapshot()))
      ensures old(journal) <= journal
    {
      hide Inv, Run, Apply, OnlyCancelled;
      var n: nat := *;
      ghost var s := Snapshot();
      assert Disturbed(s) by { NothingCancelled(s); }
      while n > 0
        invariant Valid() && Disturbed(s) && old(journal) <= journal
      {
        var k: nat := *;
        var which: int := *;
        ghost var t := Snapshot();
        Reached();
        if which == 0 {
          var id: Id := *;
          OneMoreCancelled(s, t, Event.CancelRead(k, id));
          CancelRead(k, id);
        } else if which == 1 {
          OneMoreCancelled(s, t, Event.CancelMark(k));
          CancelMark(k);
        } else {
          OneMoreCancelled(s, t, Event.CancelWrite(k));
          CancelWrite(k);
        }
        n := n - 1;
      }
    }

    // ----- accesses to shared state -----

    /** `upsert_deployment`: replace the record of that id, or append. */
    method StoreRecord(d: Deployment)
      modifies `deployments
      ensures deployments == Upsert(old(deployments), d)
    {
      var k := 0;
      while k < |deployments| && deployments[k].id != d.id
        invariant k <= |deployments|
        invariant forall i :: 0 <= i < k ==> deployments[i].id != d.id
      {
        k := k + 1;
      }
      assert k == IndexOf(deployments, d.id);
      if k < |deployments| {
        deployments := deployments[k := d];
      } else {
        deployments := deployments + [d];
      }
    }

    /** An external command or check; the model knows only whether it succeeded. */
    static method External() returns (ok: bool)
    {
      ok := *;
    }

    /** Records the step whose effect has just been performed. */
    ghost method Note(s: State, e: Event)
      requires Inv(start) && s == Run(start, journal)
      requires Snapshot() == Apply(s, e).(job := job)
      modifies `job, `journal
      ensures Valid() && journal == old(journal) + [e] && job == Apply(s, e).job
      ensures Snapshot() == Apply(s, e)
    {
      hide Inv, Apply;
      job := Apply(s, e).job;
      RunSnoc(start, journal, e);
      journal := journal + [e];
    }

    /** A step that touches nothing shared. */
    method Quietly(ghost ok: bool)
      requires Valid() && Next(ok) == Snapshot().(job := Next(ok).job)
      modifies this
      ensures Valid() && start == old(start) && old(journal) < journal && Disturbed(old(Next(ok)))
    {
      Note(Snapshot(), Outcome(ok));
      Interfere();
    }

    method Write(d: Deployment, ghost ok: bool)
      requires Valid()
      requires Next(ok).world == Now().(deployments := Upsert(deployments, d)) && Next(ok).requests == requests
      modifies this
      ensures Valid() && start == old(start) && old(journal) < journal && Disturbed(old(Next(ok)))
    {
      ghost var s := Snapshot();
      StoreRecord(d);
      Note(s, Outcome(ok));
      Interfere();
    }

    method MakeDirectory(r: Release, ghost ok: bool)
      requires Valid()
      requires Next(ok).world == Now().(directories := directories + {r}) && Next(ok).requests == requests
      modifies this
      ensures Valid() && start == old(start) && old(journal) < journal && Disturbed(old(Next(ok)))
    {
      ghost var s := Snapshot();
      directories := directories + {r};
      Note(s, Outcome(ok));
      Interfere();
    }

    method RemoveDirectory(r: Release, ghost ok: bool)
      requires Valid()
      requires Next(ok).world == Now().(directories := directories - {r}) && Next(ok).requests == requests
      modifies this
      ensures Valid() && start == old(start) && old(journal) < journal && Disturbed(old(Next(ok)))
    {
      ghost var s := Snapshot();
      directories := directories - {r};
      Note(s, Outcome(ok));
      Interfere();
    }

    /** `activate`, or the removal of the link. */
    method Link(r: Option<Release>, ghost ok: bool)
      requires Valid()
      requires Next(ok).world == Now().(current := r) && Next(ok).requests == requests
      modifies this
      ensures Valid() && start == old(start) && old(journal) < journal && Disturbed(old(Next(ok)))
    {
      ghost var s := Snapshot();
      current := r;
      Note(s, Outcome(ok));
      Interfere();
    }

    method ConfigureUpstream(port: Option<Port>, ghost ok: bool)
      requires Valid()
      requires Next(ok).world == Now().(upstream := port) && Next(ok).requests == requests
      modifies this
      ensures Valid() && start == old(start) && old(journal) < journal && Disturbed(old(Next(ok)))
    {
      ghost var s := Snapshot();
      upstream := port;
      Note(s, Outcome(ok));
      Interfere();
    }

    method StartUnit(unit: Unit, port: Port, ghost ok: bool)
      requires Valid()
      requires Next(ok).world == Now().(running := running[unit := port]) && Next(ok).requests == requests
      modifies this
      ensures Valid() && start == old(start) && old(journal) < journal && Disturbed(old(Next(ok)))
    {
      ghost var s := Snapshot();
      running := running[unit := port];
      Note(s, Outcome(ok));
      Interfere();
    }

    method StopUnit(unit: Unit, ghost ok: bool)
      requires Valid()
      requires Next(ok).world == Now().(running := running - {unit}) && Next(ok).requests == requests
      modifies this
      ensures Valid() && start == old(start) && old(journal) < journal && Disturbed(old(Next(ok)))
    {
      ghost var s := Snapshot();
      running := running - {unit};
      Note(s, Outcome(ok));
      Interfere();
    }

    // ----- where the procedures are -----

    ghost predicate At(d: Deployment, pc: Pc)
      reads this
    {
      Valid() && job.Deploying? && job.local == d && job.pc == pc
    }

    /** The running deploy is the one it was. */
    ghost predicate Continues(j: Job, s: State, events: seq<Event>)
      requires j.Deploying?
      reads this
    {
      && job.Deploying? && job == j.(local := job.local, pc := job.pc) && job.local.id == j.local.id
      && start == s && events < journal
    }

    /** An error was returned: of preparation, or of the validation phase given. */
    ghost predicate FailedAt(d: Deployment, phase: Option<PhaseName>)
      reads this
    {
      if phase.Some? then At(Pushed(d, phase.value, PhaseFailed), Undo(UndoActivation, phase.value, false))
      else At(d, Abort(AbortActivation, false))
    }

    // ----- cancellation checks and workflow commands -----

    function StageError(stage: Stage): Option<PhaseName> {
      if stage.PostDeploy? then Some(PostDeployCommands) else None
    }

    method EnsureNotCancelled(d: Deployment, ghost boundary: Boundary) returns (cancelled: bool, e: Deployment)
      requires At(d, Check(boundary))
      modifies this
      ensures Continues(old(job), old(start), old(journal))
      ensures cancelled <==> d.id in old(markers)
      ensures e == if cancelled then d.(status := Cancelled) else d
      ensures cancelled ==> FailedAt(e, if boundary.AfterHealth? then Some(Cancellation) else None)
      ensures !cancelled ==> At(e, AfterCheck(boundary))
    {
      hide Inv, Run, Upsert, FinishPhase;
      cancelled := d.id in markers;
      e := d;
      if cancelled {
        e := d.(status := Cancelled);
        Write(e, true);
      } else {
        Quietly(true);
      }
    }

    method EnsureNotCancelledInside(d: Deployment, ghost stage: Stage, ghost left: nat)
      returns (cancelled: bool, e: Deployment)
      requires At(d, Guard(stage, left))
      modifies this
      ensures Continues(old(job), old(start), old(journal))
      ensures cancelled <==> d.id in old(markers)
      ensures e == if cancelled then d.(status := Cancelled) else d
      ensures cancelled ==> FailedAt(e, StageError(stage))
      ensures !cancelled ==> At(e, Execute(stage, left))
    {
      hide Inv, Run, Upsert, FinishPhase;
      cancelled := d.id in markers;
      e := d;
      if cancelled {
        e := d.(status := Cancelled);
        Write(e, true);
      } else {
        Quietly(true);
      }
    }

    /** `run_workflow_commands` on a list of this many commands */
    method RunWorkflowCommands(stage: Stage, commands: nat, config: Config, d: Deployment)
      returns (ok: bool, e: Deployment)
      requires At(d, Enter(stage)) && job.config == config && commands == Commands(config, stage)
      requires stage.Build? ==> config.build.BuildCommand?
      modifies this
      ensures Continues(old(job), old(start), old(journal))
      ensures ok ==> At(e, AfterStage(config, stage))
      ensures !ok ==> FailedAt(e, StageError(stage))
    {
      hide Valid, Inv, Run, Apply, Snapshot, Now, Next, Disturbed;
      if commands == 0 {
        e := SkipStage(stage, config, d);
        return true, e;
      }
      ok, e := OpenStage(stage, commands, config, d);
      if ok {
        ok, e := RunCommands(stage, commands, config, e);
      }
    }

    method SkipStage(stage: Stage, config: Config, d: Deployment) returns (e: Deployment)
      requires At(d, Enter(stage)) && job.config == config && Commands(config, stage) == 0
      requires stage.Build? ==> config.build.BuildCommand?
      modifies this
      ensures Continues(old(job), old(start), old(journal)) && At(e, AfterStage(config, stage))
    {
      hide Inv, Run, Upsert, FinishPhase;
      e := Pushed(d, StageName(stage), PhaseSkipped);
      Write(e, true);
    }

    /** The phase is stored as running before the environment is resolved. */
    method OpenStage(stage: Stage, commands: nat, config: Config, d: Deployment) returns (ok: bool, e: Deployment)
      requires At(d, Enter(stage)) && job.config == config && commands == Commands(config, stage) && commands > 0
      requires stage.Build? ==> config.build.BuildCommand?
      modifies this
      ensures Continues(old(job), old(start), old(journal))
      ensures ok ==> At(e, Guard(stage, commands))
      ensures !ok ==> FailedAt(e, StageError(stage))
    {
      hide Inv, Run, Upsert, FinishPhase;
      e := Pushed(d, StageName(stage), PhaseRunning);
      ok := External();
      Write(e, ok);
    }

    method RunCommands(stage: Stage, commands: nat, config: Config, d: Deployment) returns (ok: bool, e: Deployment)
      requires commands > 0 && At(d, Guard(stage, commands)) && job.config == config
      modifies this
      ensures Continues(old(job), old(start), old(journal))
      ensures ok ==> At(e, AfterStage(config, stage))
      ensures !ok ==> FailedAt(e, StageError(stage))
    {
      hide Inv, Run, Valid, Apply, Snapshot, Now, Next, Disturbed;
      var left := commands;
      ok, e := true, d;
      while ok && left > 0
        invariant ok ==> At(e, if left > 0 then Guard(stage, left) else AfterStage(config, stage))
        invariant !ok ==> FailedAt(e, StageError(stage))
        invariant job.Deploying? && job.config == config
        invariant job == old(job).(local := job.local, pc := job.pc) && job.local.id == old(job).local.id
        invariant start == old(start) && old(journal) <= journal
        invariant left < commands || !ok ==> old(journal) < journal
      {
        ok, e := RunCommand(stage, left, config, e);
        if ok {
          left := left - 1;
        }
      }
    }

    /** One command; the phase is closed after the last. */
    method RunCommand(stage: Stage, left: nat, config: Config, d: Deployment) returns (ok: bool, e: Deployment)
      requires left > 0 && At(d, Guard(stage, left)) && job.config == config
      modifies this
      ensures Continues(old(job), old(start), old(journal))
      ensures ok ==> At(e, if left > 1 then Guard(stage, left - 1) else AfterStage(config, stage))
      ensures !ok ==> FailedAt(e, StageError(stage))
    {
      hide Inv, Run, Upsert, FinishPhase, MainStep, UndoStepOf, AbortStepOf, RollbackStep;
      var cancelled;
      cancelled, e := EnsureNotCancelledInside(d, stage, left);
      if cancelled {
        return false, e;
      }
      ok := External();
      if !ok {
        e := Finished(e, StageName(stage), PhaseFailed);
        Write(e, false);
      } else if left == 1 {
        e := Finished(e, StageName(stage), PhaseCompleted);
        Write(e, true);
      } else {
        Quietly(true);
      }
    }

    // ----- prepare_release -----

    method CheckOut(config: Config, d: Deployment) returns (ok: bool, e: Deployment)
      requires At(d, Fetch) && job.config == config
      modifies this
      ensures Continues(old(job), old(start), old(journal))
      ensures ok ==> At(e, Manifest)
      ensures !ok ==> FailedAt(e, None)
    {
      hide Inv, Run, Upsert, FinishPhase, StageStep, UndoStepOf, AbortStepOf, RollbackStep, CancelStep;
      ok, e := FetchSource(d);
      if !ok {
        return;
      }
      ok := External();   // resolve the revision and read its metadata
      Quietly(ok);
      if ok {
        ok, e := CloneRelease(e);
      }
    }

    method FetchSource(d: Deployment) returns (ok: bool, e: Deployment)
      requires At(d, Fetch)
      modifies this
      ensures Continues(old(job), old(start), old(journal))
      ensures ok ==> At(e, Resolve)
      ensures !ok ==> FailedAt(e, None)
    {
      hide Inv, Run, Upsert, FinishPhase, StageStep;
      e := d;
      ok := External();   // fetch or clone the mirror
      if !ok {
        Quietly(false);
        return;
      }
      e := Pushed(e, Source, PhaseCompleted);
      Write(e, true);
      var cancelled;
      cancelled, e := EnsureNotCancelled(e, AfterSource);
      ok := !cancelled;
    }

    method CloneRelease(d: Deployment) returns (ok: bool, e: Deployment)
      requires At(d, Clone)
      modifies this
      ensures Continues(old(job), old(start), old(journal))
      ensures ok ==> At(e, Manifest)
      ensures !ok ==> FailedAt(e, None)
    {
      hide Inv, Run, Upsert, FinishPhase;
      e := d;
      ok := External();
      if !ok {
        Quietly(false);
        return;
      }
      MakeDirectory(e.release, true);
      ok := External();
      if !ok {
        Quietly(false);
        return;
      }
      e := Pushed(e, CheckedOut, PhaseCompleted);
      Write(e, true);
    }

    method SyncManifest(config: Config, d: Deployment) returns (ok: bool, e: Deployment)
      requires At(d, Manifest) && job.config == config
      modifies this
      ensures Continues(old(job), old(start), old(journal))
      ensures ok ==> At(e, Enter(PreDeploy))
      ensures !ok ==> FailedAt(e, None)
    {
      hide Inv, Run, Upsert, FinishPhase;
      e := d;
      ok := External();   // the manifest agrees with the applied contract
      if !ok {
        Quietly(false);
        return;
      }
      if config.manifest {
        e := Pushed(e, ManifestSync, PhaseCompleted);
        Write(e, true);
      } else {
        Quietly(true);
      }
      ok := External();   // shared paths, working directory, environment
      Quietly(ok);
    }

    method BuildRelease(config: Config, d: Deployment) returns (ok: bool, e: Deployment)
      requires At(d, Enter(Build)) && job.config == config
      modifies this
      ensures Continues(old(job), old(start), old(journal))
      ensures ok ==> At(e, Check(AfterBuild))
      ensures !ok ==> FailedAt(e, None)
    {
      hide Inv, Run, Upsert, FinishPhase;
      match config.build {
        case BuildCommand =>
          ok, e := RunWorkflowCommands(Build, 1, config, d);
        case BuildDependencies =>
          ok, e := InstallDependencies(d);
        case NoBuild =>
          e := Pushed(d, BuildCommands, PhaseSkipped);
          Quietly(true);
          ok := true;
      }
      if ok {
        Write(e, true);
      }
    }

    method InstallDependencies(d: Deployment) returns (ok: bool, e: Deployment)
      requires At(d, Enter(Build)) && job.config.build.BuildDependencies?
      modifies this
      ensures Continues(old(job), old(start), old(journal))
      ensures ok ==> At(e, Republish)
      ensures !ok ==> FailedAt(e, None)
    {
      hide Inv, Run, Upsert, FinishPhase;
      e := Pushed(d, BuildCommands, PhaseRunning);
      Write(e, true);
      ok := External();
      if !ok {
        e := Finished(e, BuildCommands, PhaseFailed);
        Write(e, false);
        return;
      }
      e := Finished(e, BuildCommands, PhaseCompleted);
      Quietly(true);
    }

    /** From `pre_deploy` to the entry point. */
    method RunStages(config: Config, d: Deployment) returns (ok: bool, e: Deployment)
      requires At(d, Enter(PreDeploy)) && job.config == config
      modifies this
      ensures Continues(old(job), old(start), old(journal))
      ensures ok ==> At(e, EntryPoint)
      ensures !ok ==> FailedAt(e, None)
    {
      hide Valid, Inv, Run, Apply, Snapshot, Now, Next, Disturbed;
      ok, e := BuildStages(config, d);
      if ok {
        ok, e := MigrateStage(config, e);
      }
    }

    method BuildStages(config: Config, d: Deployment) returns (ok: bool, e: Deployment)
      requires At(d, Enter(PreDeploy)) && job.config == config
      modifies this
      ensures Continues(old(job), old(start), old(journal))
      ensures ok ==> At(e, Enter(Migrate))
      ensures !ok ==> FailedAt(e, None)
    {
      hide Valid, Inv, Run, Apply, Snapshot, Now, Next, Disturbed;
      var cancelled;
      ok, e := RunWorkflowCommands(PreDeploy, config.preDeploy, config, d);
      if !ok {
        return;
      }
      cancelled, e := EnsureNotCancelled(e, AfterPreDeploy);
      if cancelled {
        return false, e;
      }
      ok, e := BuildRelease(config, e);
      if !ok {
        return;
      }
      cancelled, e := EnsureNotCancelled(e, AfterBuild);
      ok := !cancelled;
    }

    method MigrateStage(config: Config, d: Deployment) returns (ok: bool, e: Deployment)
      requires At(d, Enter(Migrate)) && job.config == config
      modifies this
      ensures Continues(old(job), old(start), old(journal))
      ensures ok ==> At(e, EntryPoint)
      ensures !ok ==> FailedAt(e, None)
    {
      hide Valid, Inv, Run, Apply, Snapshot, Now, Next, Disturbed;
      if config.migrate {
        ok, e := RunWorkflowCommands(Migrate, 1, config, d);
      } else {
        e := SkipStage(Migrate, config, d);
        ok := true;
      }
      if ok {
        var cancelled;
        cancelled, e := EnsureNotCancelled(e, AfterMigrate);
        ok := !cancelled;
      }
    }

    method StartNodeUnit(handoff: Handoff, previous: Option<Port>, d: Deployment) returns (ok: bool, e: Deployment)
      requires At(d, Pc.StartUnit) && job.config.handoff == Some(handoff) && PortOf(job.node) == previous
      modifies this
      ensures Continues(old(job), old(start), old(journal))
      ensures ok ==> At(e, Register)
      ensures !ok ==> FailedAt(e, None)
    {
      hide Inv, Run, Upsert;
      e := d;
      ok := External();
      if !ok || !handoff.Valid() {
        Quietly(ok);
        return false, e;
      }
      var port := if previous == Some(handoff.primary) then handoff.secondary else handoff.primary;
      var unit := WebUnit(e.id);
      StartUnit(unit, port, true);
      e := Pushed(e.(port := Some(port), unit := Some(unit)), NodeStart, PhaseCompleted);
    }

    method RegisterUnit(d: Deployment)
      requires At(d, Register)
      modifies this
      ensures Continues(old(job), old(start), old(journal)) && At(d, Probe)
    {
      hide Inv, Run, Upsert;
      Write(d, true);
    }

    method StartNodeRelease(handoff: Handoff, previous: Option<Port>, d: Deployment) returns (ok: bool, e: Deployment)
      requires At(d, Pc.StartUnit) && job.config.handoff == Some(handoff) && PortOf(job.node) == previous
      modifies this
      ensures Continues(old(job), old(start), old(journal))
      ensures ok ==> At(e, Activate)
      ensures !ok ==> FailedAt(e, None)
    {
      hide Valid, Inv, Run, Apply, Snapshot, Now, Next, Disturbed;
      ok, e := StartNodeUnit(handoff, previous, d);
      if !ok {
        return;
      }
      RegisterUnit(e);
      ok, e := ProbeNodeRelease(e);
    }

    method ProbeNodeRelease(d: Deployment) returns (ok: bool, e: Deployment)
      requires At(d, Probe)
      modifies this
      ensures Continues(old(job), old(start), old(journal))
      ensures ok ==> At(e, Activate)
      ensures !ok ==> FailedAt(e, None)
    {
      hide Inv, Run, Upsert;
      e := d;
      ok := External();
      if ok {
        e := Pushed(e, NodeReadiness, PhaseCompleted);
      }
      Quietly(ok);
    }

    method ActivateRelease(d: Deployment) returns (ok: bool, e: Deployment)
      requires At(d, Activate)
      modifies this
      ensures Continues(old(job), old(start), old(journal))
      ensures ok ==> At(e, Health)
      ensures !ok ==> FailedAt(e, None)
    {
      hide Inv, Run, Upsert, FinishPhase, ChoosePort, Expired, StageStep, UndoStepOf, AbortStepOf, RollbackStep,
        CancelStep;
      e := d;
      ok := External();
      if !ok {
        Quietly(false);
        return;
      }
      Link(Some(e.release), true);
      e := Pushed(e, Activation, PhaseCompleted);
      if e.port.Some? {
        ok := External();
        if !ok {
          Quietly(false);
          return;
        }
        ConfigureUpstream(e.port, true);
        e := Pushed(e, NodeHandoff, PhaseCompleted);
      }
      Write(e, true);
    }

    method ValidateEntryPoint(config: Config, d: Deployment) returns (ok: bool, e: Deployment)
      requires At(d, EntryPoint) && job.config == config
      modifies this
      ensures Continues(old(job), old(start), old(journal))
      ensures ok ==> At(e, AfterReady(config))
      ensures !ok ==> FailedAt(e, None)
    {
      hide Inv, Run, Upsert;
      e := d;
      ok := External();
      if ok {
        e := Pushed(e, PreActivation, PhaseCompleted);
      }
      Quietly(ok);
    }

    /** `prepare_release` up to the entry point of the built release. */
    method PrepareFiles(config: Config, d: Deployment) returns (ok: bool, e: Deployment)
      requires At(d, Fetch) && job.config == config
      modifies this
      ensures Continues(old(job), old(start), old(journal))
      ensures ok ==> At(e, AfterReady(config))
      ensures !ok ==> FailedAt(e, None)
    {
      hide Valid, Inv, Run, Apply, Snapshot, Now, Next, Disturbed, AfterReady;
      ok, e := CheckOut(config, d);
      if !ok {
        return;
      }
      ok, e := SyncManifest(config, e);
      if !ok {
        return;
      }
      ok, e := RunStages(config, e);
      if !ok {
        return;
      }
      ok, e := ValidateEntryPoint(config, e);
    }

    method PrepareRelease(config: Config, previous: Option<Port>, d: Deployment) returns (ok: bool, e: Deployment)
      requires At(d, Fetch) && job.config == config && PortOf(job.node) == previous
      modifies this
      ensures Continues(old(job), old(start), old(journal))
      ensures ok ==> At(e, Health)
      ensures !ok ==> FailedAt(e, None)
    {
      hide Valid, Inv, Run, Apply, Snapshot, Now, Next, Disturbed;
      ok, e := PrepareFiles(config, d);
      if !ok {
        return;
      }
      if config.handoff.Some? {
        ok, e := StartNodeRelease(config.handoff.value, previous, e);
        if !ok {
          return;
        }
      }
      ok, e := ActivateRelease(e);
    }

    // ----- deploy_revision -----

    method CheckHealth(d: Deployment) returns (ok: bool, e: Deployment)
      requires At(d, Health)
      modifies this
      ensures Continues(old(job), old(start), old(journal))
      ensures ok ==> At(e, Check(AfterHealth))
      ensures !ok ==> FailedAt(e, Some(HealthCheck))
    {
      hide Inv, Run, Upsert;
      e := d;
      ok := External();
      if ok {
        e := Pushed(e, HealthCheck, PhaseCompleted);
        Write(e, true);
      } else {
        Quietly(false);
      }
    }

    /** Health, the last cancellation check, `post_deploy` and the processes; on error, the phase that failed. */
    method ValidateRelease(config: Config, d: Deployment) returns (failed: Option<PhaseName>, e: Deployment)
      requires At(d, Health) && job.config == config
      modifies this
      ensures Continues(old(job), old(start), old(journal))
      ensures failed.None? ==> At(e, Complete)
      ensures failed.Some? ==> FailedAt(e, failed)
    {
      hide Valid, Inv, Run, Apply, Snapshot, Now, Next, Disturbed;
      var ok, cancelled;
      ok, e := CheckHealth(d);
      if !ok {
        return Some(HealthCheck), e;
      }
      cancelled, e := EnsureNotCancelled(e, AfterHealth);
      if cancelled {
        return Some(Cancellation), e;
      }
      failed, e := ConfigureRelease(config, e);
    }

    method ConfigureRelease(config: Config, d: Deployment) returns (failed: Option<PhaseName>, e: Deployment)
      requires At(d, Enter(PostDeploy)) && job.config == config
      modifies this
      ensures Continues(old(job), old(start), old(journal))
      ensures failed.None? ==> At(e, Complete)
      ensures failed.Some? ==> FailedAt(e, failed)
    {
      hide Valid, Inv, Run, Apply, Snapshot, Now, Next, Disturbed;
      var ok;
      ok, e := RunWorkflowCommands(PostDeploy, config.postDeploy, config, d);
      if !ok {
        return Some(PostDeployCommands), e;
      }
      failed := AddProcesses(config, e);
    }

    method AddProcesses(config: Config, ghost d: Deployment) returns (failed: Option<PhaseName>)
      requires At(d, Processes(config.processes)) && job.config == config
      modifies this
      ensures Continues(old(job), old(start), old(journal))
      ensures failed.None? ==> At(d, Complete)
      ensures failed.Some? ==> FailedAt(d, failed)
    {
      hide Inv, Run, Upsert, FinishPhase;
      var left := config.processes;
      while left > 0
        invariant At(d, Processes(left))
        invariant job == old(job).(local := job.local, pc := job.pc) && job.local.id == old(job).local.id
        invariant start == old(start) && old(journal) <= journal
      {
        var ok := External();
        Quietly(ok);
        if !ok {
          return Some(ProcessUnits);
        }
        left := left - 1;
      }
      Quietly(true);
      failed := None;
    }

    /** The snapshot is reachable, so whatever holds of reachable states holds now. */
    lemma Reached()
      requires Valid()
      ensures Inv(Snapshot())
    {
      hide Inv;
      RunKeepsInv(start, journal);
    }

    method DrainPrevious(config: Config, node: Option<Deployment>, d: Deployment) returns (e: Deployment)
      requires At(d, Drain) && job.config == config && job.node == node
      modifies this
      ensures Continues(old(job), old(start), old(journal)) && At(e, Prune) && e.release == d.release
    {
      hide Inv, Run, Upsert;
      if config.handoff.Some? && node.Some? && node.value.unit.Some? {
        var stopped := External();
        if stopped {
          e := Pushed(d, Draining, PhaseCompleted);
          StopUnit(node.value.unit.value, true);
        } else {
          e := Pushed(d, Draining, PhaseFailed);
          Quietly(false);
        }
      } else {
        e := Pushed(d, Draining, PhaseSkipped);
        Quietly(true);
      }
      RecordDrain(e);
    }

    method RecordDrain(d: Deployment)
      requires At(d, Drained)
      modifies this
      ensures Continues(old(job), old(start), old(journal)) && At(d, Prune)
    {
      hide Inv, Run, Upsert;
      Write(d, true);
    }

    /** `prune_releases`: newest first, skip the retained ones, delete the rest but the live one. */
    method PruneReleases(retention: nat)
      modifies `directories
      ensures directories == old(directories) - Expired(old(Now()), retention)
    {
      var successful := CompletedOf(deployments);
      var expired := Older(successful, retention);
      var i := |expired|;
      assert expired[i..] == [];
      while i > 0
        invariant i <= |expired|
        invariant directories == old(directories) - NotLive(expired[i..], current)
      {
        i := i - 1;
        var r := expired[i].release;
        assert expired[i..] == [expired[i]] + expired[i + 1..];
        NotLiveOfCons(expired[i], expired[i + 1..], current);
        if current != Some(r) {
          directories := directories - {r};
        }
      }
      assert expired[0..] == expired;
    }

    method FinishRelease(config: Config, node: Option<Deployment>, d: Deployment)
      requires At(d, Complete) && job.config == config && job.node == node
      modifies this
      ensures Valid() && job.Idle? && start == old(start) && old(journal) < journal
      ensures current == Some(d.release) && d.release in directories
      ensures directories <= old(job.origin.directories) + {d.release}
    {
      hide Inv, Run, Upsert, Expired;
      var e := d.(healthy := true, status := Completed);
      Write(e, true);
      e := DrainPrevious(config, node, e);
      Reached();
      ghost var s := Snapshot();
      PruneIsLive(s);
      PruneReleases(config.retention);
      Note(s, Outcome(true));
    }

    /** The validation-failure branch. */
    method UndoRelease(node: Option<Deployment>, d: Deployment, phase: PhaseName)
      requires FailedAt(d, Some(phase)) && job.node == node
      modifies this
      ensures Valid() && job.Idle? && start == old(start) && old(journal) < journal
      ensures FailureEffect(old(job).origin, Now(), true)
    {
      hide Inv, Run, Apply, Next, Now, Snapshot, Disturbed, FailureEffect;
      var e := Pushed(d, phase, PhaseFailed);
      var rolledBack := UndoLink(e, phase);
      UndoNode(node, e, phase, rolledBack);
      e := UndoRecordOf(e, phase, rolledBack);
      UndoFiles(e, phase, rolledBack);
    }

    method UndoLink(e: Deployment, ghost phase: PhaseName) returns (rolledBack: bool)
      requires At(e, Undo(UndoActivation, phase, false))
      modifies this
      ensures Continues(old(job), old(start), old(journal)) && At(e, Undo(UndoUpstream, phase, rolledBack))
    {
      hide Inv, Run, Upsert;
      rolledBack := e.previous.Some? && e.previous.value in directories;
      if rolledBack {
        Link(e.previous, true);
      } else {
        Quietly(true);
      }
    }

    method UndoNode(node: Option<Deployment>, e: Deployment, ghost phase: PhaseName, ghost rolledBack: bool)
      requires At(e, Undo(UndoUpstream, phase, rolledBack)) && job.node == node
      modifies this
      ensures Continues(old(job), old(start), old(journal)) && At(e, Undo(UndoRecord, phase, rolledBack))
    {
      hide Inv, Run, Upsert;
      if e.unit.Some? && PortOf(node).Some? {
        ConfigureUpstream(PortOf(node), true);
      } else {
        Quietly(true);
      }
      if e.unit.Some? {
        StopUnit(e.unit.value, true);
      } else {
        Quietly(true);
      }
    }

    method UndoRecordOf(d: Deployment, phase: PhaseName, rolledBack: bool) returns (e: Deployment)
      requires At(d, Undo(UndoRecord, phase, rolledBack))
      modifies this
      ensures Continues(old(job), old(start), old(journal)) && At(e, Undo(UndoCurrent, phase, rolledBack))
    {
      hide Inv, Run, Upsert;
      e := d.(automaticRollback := rolledBack,
        status := if phase == Cancellation then Cancelled else if rolledBack then FailedRolledBack else Failed);
      Write(e, true);
    }

    method UndoFiles(e: Deployment, ghost phase: PhaseName, rolledBack: bool)
      requires At(e, Undo(UndoCurrent, phase, rolledBack))
      modifies this
      ensures Valid() && job.Idle? && start == old(start) && old(journal) < journal
      ensures FailureEffect(old(job).origin, Now(), true)
    {
      hide Inv, Run;
      if rolledBack {
        Quietly(true);
      } else {
        Link(None, true);
      }
      Reached();
      UndoIsNoOp(Snapshot());
      RemoveDirectory(e.release, true);
    }

    /** The preparation-failure branch. */
    method AbortRelease(node: Option<Deployment>, d: Deployment)
      requires FailedAt(d, None) && job.node == node
      modifies this
      ensures Valid() && job.Idle? && start == old(start) && old(journal) < journal
      ensures FailureEffect(old(job).origin, Now(), false)
    {
      hide Inv, Run, Apply, Next, Now, Snapshot, Disturbed, FailureEffect;
      var restored := AbortLink(d);
      AbortNode(node, d, restored);
      AbortRecordOf(d, restored);
    }

    method AbortLink(d: Deployment) returns (restored: bool)
      requires At(d, Abort(AbortActivation, false))
      modifies this
      ensures Continues(old(job), old(start), old(journal)) && At(d, Abort(AbortUpstream, restored))
    {
      hide Inv, Run, Upsert;
      var activated := ACTIVATION in d.phases;
      restored := activated && d.previous.Some? && d.previous.value in directories;
      if restored {
        Link(d.previous, true);
      } else {
        Quietly(true);
      }
    }

    method AbortNode(node: Option<Deployment>, d: Deployment, ghost restored: bool)
      requires At(d, Abort(AbortUpstream, restored)) && job.node == node
      modifies this
      ensures Continues(old(job), old(start), old(journal)) && At(d, Abort(AbortRecord, restored))
    {
      hide Inv, Run, Upsert, MainStep, StageStep, UndoStepOf, RollbackStep;
      if d.unit.Some? && PortOf(node).Some? {
        ConfigureUpstream(PortOf(node), true);
      } else {
        Quietly(true);
      }
      if d.unit.Some? {
        StopUnit(d.unit.value, true);
      } else {
        Quietly(true);
      }
      RemoveDirectory(d.release, true);
    }

    method AbortRecordOf(d: Deployment, restored: bool)
      requires At(d, Abort(AbortRecord, restored))
      modifies this
      ensures Valid() && job.Idle? && start == old(start) && old(journal) < journal
      ensures FailureEffect(old(job).origin, Now(), false)
    {
      hide Inv, Run;
      Reached();
      AbortIsNoOp(Snapshot());
      var cancelled := d.id in markers;
      var e := Pushed(d, WholeDeployment, PhaseFailed).(automaticRollback := restored,
        status := if cancelled then Cancelled else if restored then FailedRolledBack else Failed);
      Write(e, true);
    }

    /** `deploy_revision`, from the moment the application lock is held. */
    method DeployRevision(id: Id, config: Config) returns (completed: bool)
      requires Valid() && job.Idle? && Fresh(Now(), id)
      modifies this
      ensures Valid() && job.Idle? && start == old(start)
      ensures old(journal) + [Deploy(id, config)] < journal
      ensures completed ==> current == Some(ReleaseDir(id)) && ReleaseDir(id) in directories
      ensures !completed ==> directories == old(directories) && running == old(running)
      ensures !completed && Restorable(old(Now())) ==> current == old(current)
    {
      hide Inv, Run, Upsert, Apply, Restorable, PreviousNode, Fresh;
      var d := NewRecord(Now(), id);
      var node := PreviousNode(Now());
      BeginDeploy(id, config, d);
      var ok;
      ok, d := PrepareRelease(config, PortOf(node), d);
      if !ok {
        AbortRelease(node, d);
        return false;
      }
      var failed;
      failed, d := ValidateRelease(config, d);
      if failed.Some? {
        UndoRelease(node, d, failed.value);
        return false;
      }
      OwnRelease();
      FinishRelease(config, node, d);
      return true;
    }

    method BeginDeploy(id: Id, config: Config, d: Deployment)
      requires Valid() && job.Idle? && Fresh(Now(), id) && d == NewRecord(Now(), id)
      modifies this
      ensures At(d, Fetch) && start == old(start) && old(journal) + [Deploy(id, config)] <= journal
      ensures job == Deploying(old(Now()), config, d, old(PreviousNode(Now())), Fetch)
    {
      hide Inv, Run, Upsert;
      ghost var s := Snapshot();
      StoreRecord(d);
      Note(s, Deploy(id, config));
      Interfere();
    }

    // ----- rollback -----

    /** A rollback stands at this step. */
    ghost predicate RollsAt(target: Deployment, rpc: RollbackPc)
      reads this
    {
      Valid() && job.RollingBack? && job.target == target && job.rpc == rpc
    }

    ghost predicate RollsOn(j: Job, s: State, events: seq<Event>)
      requires j.RollingBack?
      reads this
    {
      job.RollingBack? && job == j.(rpc := job.rpc) && start == s && events < journal
    }

    /** The rollback is over. */
    ghost predicate RolledTo(s: State, events: seq<Event>)
      reads this
    {
      Valid() && job.Idle? && start == s && events < journal
    }

    method BeginRollback(record: Id, target: Deployment)
      requires Valid() && job.Idle? && RollbackTarget(Now()) == Some(target) && !Has(deployments, record)
      modifies this
      ensures RollsAt(target, StartTarget) && start == old(start) && old(journal) + [Event.Rollback(record)] <= journal
      ensures job == RollingBack(old(Now()), old(current), record, target, old(ActiveNode(Now())), StartTarget)
    {
      hide Inv, Run, RollbackTarget, ActiveNode;
      Note(Snapshot(), Event.Rollback(record));
      Interfere();
    }

    /** Starts the target's unit and checks it on its port. */
    method StartRollbackTarget(target: Deployment) returns (ok: bool)
      requires RollsAt(target, StartTarget)
      modifies this
      ensures ok ==> RollsOn(old(job), old(start), old(journal)) && RollsAt(target, ActivateTarget)
      ensures !ok ==> RolledTo(old(start), old(journal)) && current == old(current)
    {
      hide Inv, Run, Upsert;
      if target.unit.None? || target.port.None? {
        Quietly(true);
        return true;
      }
      ok := External();
      if !ok {
        Quietly(false);
        return;
      }
      StartUnit(target.unit.value, target.port.value, true);
      ok := External();
      Quietly(ok);
      if !ok {
        StopUnit(target.unit.value, true);
      }
    }

    /** Links the target, and for a Node target switches nginx and checks the application. */
    method SwitchRollbackTarget(target: Deployment) returns (ok: bool, reached: RollbackPc)
      requires RollsAt(target, ActivateTarget)
      modifies this
      ensures ok ==> RollsOn(old(job), old(start), old(journal)) && RollsAt(target, reached)
      ensures ok ==> reached == (if IsNode(target) then DrainLive else WriteRollback) || reached.Reactivate?
      ensures ok ==> current == Some(target.release)
      ensures !ok ==> RolledTo(old(start), old(journal)) && current == old(current)
    {
      hide Inv, Run, Upsert;
      ok := External();
      if !ok {
        Quietly(false);
        return false, WriteRollback;
      }
      Link(Some(target.release), true);
      if target.unit.None? || target.port.None? {
        return true, WriteRollback;
      }
      var switched := External();
      if !switched {
        Quietly(false);
        return true, Reactivate(false);
      }
      ConfigureUpstream(target.port, true);
      reached := CheckRollbackTarget(target);
    }

    method CheckRollbackTarget(target: Deployment) returns (reached: RollbackPc)
      requires RollsAt(target, HealthTarget)
      modifies this
      ensures RollsOn(old(job), old(start), old(journal)) && RollsAt(target, reached) && current == old(current)
      ensures reached == DrainLive || reached == Reactivate(true)
    {
      hide Inv, Run;
      var healthy := External();
      Quietly(healthy);
      reached := if healthy then DrainLive else Reactivate(true);
    }

    /** The recovery branches of `rollback`: the previous link, nginx if it was switched, and the target's unit. */
    method RecoverRollback(target: Deployment, before: Option<Release>, live: Option<Deployment>, reset: bool)
      requires RollsAt(target, Reactivate(reset)) && job.before == before && job.live == live
      modifies this
      ensures RolledTo(old(start), old(journal)) && current == (if before.Some? then before else old(current))
    {
      hide Inv, Run;
      if before.Some? {
        Link(before, true);
      } else {
        Quietly(true);
      }
      if reset {
        ResetRollbackUpstream(target, live);
      }
      if target.unit.Some? {
        StopUnit(target.unit.value, true);
      } else {
        Quietly(true);
      }
    }

    method ResetRollbackUpstream(target: Deployment, live: Option<Deployment>)
      requires RollsAt(target, ResetUpstream) && job.live == live
      modifies this
      ensures RollsOn(old(job), old(start), old(journal)) && RollsAt(target, StopTarget) && current == old(current)
    {
      hide Inv, Run;
      if PortOf(live).Some? {
        ConfigureUpstream(PortOf(live), true);
      } else {
        Quietly(true);
      }
    }

    /** Stops the unit of the release that was live before. */
    method DrainLiveUnit(target: Deployment, live: Option<Deployment>) returns (ok: bool)
      requires RollsAt(target, DrainLive) && job.live == live
      modifies this
      ensures ok ==> RollsOn(old(job), old(start), old(journal)) && RollsAt(target, WriteRollback)
      ensures !ok ==> RolledTo(old(start), old(journal))
      ensures current == old(current)
    {
      hide Inv, Run;
      ok := true;
      if live.Some? && live.value.unit.Some? && live.value.unit != target.unit {
        ok := External();
        if ok {
          StopUnit(live.value.unit.value, true);
        } else {
          Quietly(false);
        }
      } else {
        Quietly(true);
      }
    }

    method RecordRollback(record: Id, target: Deployment, before: Option<Release>) returns (rollback: Deployment)
      requires RollsAt(target, WriteRollback) && job.record == record && job.before == before
      modifies this
      ensures RolledTo(old(start), old(journal)) && current == old(current)
      ensures rollback == Deployment(record, target.release, RolledBack, target.healthy, before,
        [Phase(RollbackPhase, PhaseCompleted)], false, target.port, target.unit)
      ensures Find(deployments, record) == Some(rollback)
    {
      hide Inv, Run, Upsert, Find, Calm;
      rollback := target.(id := record, status := RolledBack);
      rollback := rollback.(previous := before, automaticRollback := false);
      rollback := rollback.(phases := [Phase(RollbackPhase, PhaseCompleted)]);
      Reached();
      RollbackIsStored(Snapshot());
      Write(rollback, true);
    }

    /**
     `rollback`, from the moment the application lock is held.  Its record has the new id, the release, unit and
     port of the target, and the release that was live before as its previous one.
     */
    method RollbackRelease(record: Id) returns (result: RollbackResult)
      requires Valid() && job.Idle? && !Has(deployments, record)
      modifies this
      ensures Valid() && job.Idle? && start == old(start) && old(journal) <= journal
      ensures result.NoTarget? <==> old(RollbackTarget(Now())).None?
      ensures result.NoTarget? ==> Snapshot() == old(Snapshot()) && journal == old(journal)
      ensures !result.NoTarget? ==> old(journal) + [Event.Rollback(record)] < journal
      ensures result.Recorded? ==>
        var target := old(RollbackTarget(Now())).value;
        && current == Some(target.release) && Find(deployments, record) == Some(result.record)
        && result.record == Deployment(record, target.release, RolledBack, target.healthy, old(current),
             [Phase(RollbackPhase, PhaseCompleted)], false, target.port, target.unit)
      ensures result.RollbackFailed? && old(current).Some? ==>
        current == old(current) || current == Some(old(RollbackTarget(Now())).value.release)
    {
      hide Inv, Run, RollbackTarget, ActiveNode, Apply, Find;
      var before := current;
      var live := ActiveNode(Now());
      var found := RollbackTarget(Now());
      if found.None? {
        return NoTarget;
      }
      var target := found.value;
      BeginRollback(record, target);
      result := FinishRollback(record, target, before, live);
    }

    method FinishRollback(record: Id, target: Deployment, before: Option<Release>, live: Option<Deployment>)
      returns (result: RollbackResult)
      requires RollsAt(target, StartTarget) && job.record == record && job.before == before && job.live == live
      requires before == job.origin.current
      modifies this
      ensures RolledTo(old(start), old(journal)) && !result.NoTarget?
      ensures result.Recorded? ==>
        && current == Some(target.release) && Find(deployments, record) == Some(result.record)
        && result.record == Deployment(record, target.release, RolledBack, target.healthy, before,
             [Phase(RollbackPhase, PhaseCompleted)], false, target.port, target.unit)
      ensures result.RollbackFailed? && before.Some? ==> current == before || current == Some(target.release)
    {
      hide Valid, Inv, Run, Apply, Snapshot, Now, Next, Disturbed, RollbackTarget, ActiveNode, Find;
      StartIsUnlinked(target);
      var ok := StartRollbackTarget(target);
      if !ok {
        return RollbackFailed;
      }
      ActivationIsUnlinked(target);
      var reached;
      ok, reached := SwitchRollbackTarget(target);
      if !ok {
        return RollbackFailed;
      }
      if reached.Reactivate? {
        RecoverRollback(target, before, live, reached.reset);
        return RollbackFailed;
      }
      if IsNode(target) {
        ok := DrainLiveUnit(target, live);
        if !ok {
          return RollbackFailed;
        }
      }
      var rollback := RecordRollback(record, target, before);
      result := Recorded(rollback);
    }

    lemma StartIsUnlinked(target: Deployment)
      requires RollsAt(target, StartTarget)
      ensures current == job.origin.current
    {
      Reached();
      hide RollbackTarget, ActiveNode, Listed, Inv;
    }

    lemma ActivationIsUnlinked(target: Deployment)
      requires RollsAt(target, ActivateTarget)
      ensures current == job.origin.current
    {
      Reached();
      hide RollbackTarget, ActiveNode, Listed;
    }

    lemma OwnRelease()
      requires Valid() && job.Deploying?
      ensures job.local.release == ReleaseDir(job.local.id)
    {
      Reached();
      hide PreviousNode, Listed, Progress, Undoing, Aborting;
    }
  }

  lemma NotLiveOfCons(d: Deployment, cs: seq<Deployment>, current: Option<Release>)
    ensures NotLive([d] + cs, current) == NotLive(cs, current)
      + (if current != Some(d.release) then {d.release} else {})
  {
  }

  /** What either failure branch leaves, in terms of the world in which the deploy began. */
  ghost predicate FailureEffect(origin: World, w: World, validated: bool) {
    && w.directories == origin.directories
    && w.running == origin.running
    && (Restorable(origin) ==> w.current == origin.current)
    && (validated && !Restorable(origin) ==> w.current == None)
  }

  lemma PruneIsLive(s: State)
    requires Inv(s) && s.job.Deploying? && s.job.pc.Prune?
    ensures var w := s.world.(directories := s.world.directories - Expired(s.world, s.job.config.retention));
      && w.current == Some(s.job.local.release) && s.job.local.release in w.directories
      && w.directories <= s.job.origin.directories + {s.job.local.release}
  {
    hide PreviousNode, Listed;
  }

  lemma UndoIsNoOp(s: State)
    requires Inv(s) && s.job.Deploying? && s.job.pc.Undo? && s.job.pc.undo.UndoDirectory?
    ensures FailureEffect(s.job.origin, DeployStep(s, true).world, true) && DeployStep(s, true).job.Idle?
  {
    hide PreviousNode, Listed, Activated;
  }

  lemma AbortIsNoOp(s: State)
    requires Inv(s) && s.job.Deploying? && s.job.pc.Abort? && s.job.pc.abort.AbortRecord?
    ensures FailureEffect(s.job.origin, DeployStep(s, true).world, false) && DeployStep(s, true).job.Idle?
  {
    hide PreviousNode, Listed, Activated, Upsert;
  }
}
