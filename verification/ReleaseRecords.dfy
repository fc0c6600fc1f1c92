/** What the stored record of a running deploy shows to other processes, and which records are marked. */
module ReleaseRecords {
  import opened Results
  import opened Releases
  import opened ReleaseInvariant
  import opened ReleaseHistory
  import opened ReleaseCompletions
  import opened ReleaseProgress
  import opened ReleasePhases

  // ----- the stored record of a running deploy -----

  /** The phases of the stored record; some steps add to their own record before they store it. */
  function StoredLog(config: Config, d: Deployment, pc: Pc): seq<Phase>
    requires OnMainLine(pc)
  {
    if pc.Republish? then
      match config.build
      case BuildCommand => MigrateLog(config)
      case BuildDependencies => Open(config, Build)
      case NoBuild => BuildLog(config)
    else if pc.StartUnit? || pc.Register? then EntryLog(config)
    else if pc.Activate? || pc.Switch? || pc.Publish? then
      if config.handoff.Some? then StartedLog(config) else EntryLog(config)
    else if pc.Drained? then ValidatedLog(config)
    else if pc.Prune? then d.phases
    else Log(config, pc)
  }

  /** The stored record, unless a cancellation has overwritten it since the deploy's last write. */
  function StoredRecord(job: Job): Deployment
    requires job.Deploying? && OnMainLine(job.pc)
  {
    var d := job.local.(phases := StoredLog(job.config, job.local, job.pc));
    if job.pc.Register? then d.(unit := None, port := None) else d
  }

  ghost predicate Shown(s: State) {
    s.job.Deploying? && OnMainLine(s.job.pc) ==>
      var n := |s.job.origin.deployments|;
      && n < |s.world.deployments|
      && (s.world.deployments[n].status == Cancelling || s.world.deployments[n] == StoredRecord(s.job))
  }

  /** A step that stores the deploy's record stores all of it, the others leave out what they have not stored. */
  predicate StepShows(s: State, ok: bool)
    requires s.job.Deploying? && OnMainLine(s.job.pc)
    requires DeployStep(s, ok).job.Deploying? && OnMainLine(DeployStep(s, ok).job.pc)
  {
    var job, d := DeployStep(s, ok).job, RecordWritten(s, ok);
    StoredRecord(job) == if d.Some? then d.value else StoredRecord(s.job)
  }

  lemma SourceShows(s: State, ok: bool)
    requires s.job.Deploying? && InMain(s.job.pc) && Rank(s.job.pc) < 5 && LoggedJob(s.job)
    requires MainStep(s, ok).job.Deploying? && OnMainLine(MainStep(s, ok).job.pc)
    ensures StepShows(s, ok)
  {
    hide Upsert, MigrateLog, EntryLog, StartedLog, HealthyLog, ValidatedLog, ReadyLog, ManifestLog;
  }

  lemma ManifestShows(s: State, ok: bool)
    requires s.job.Deploying? && InMain(s.job.pc) && 5 <= Rank(s.job.pc) < 10 && LoggedJob(s.job)
    requires MainStep(s, ok).job.Deploying? && OnMainLine(MainStep(s, ok).job.pc)
    ensures StepShows(s, ok)
  {
    hide Upsert, SourceLog, CheckoutLog, MigrateLog, EntryLog, StartedLog, HealthyLog, ValidatedLog, ReadyLog;
  }

  lemma NodeShows(s: State, ok: bool)
    requires s.job.Deploying? && InMain(s.job.pc) && 10 <= Rank(s.job.pc) < 15 && LoggedJob(s.job)
    requires MainStep(s, ok).job.Deploying? && OnMainLine(MainStep(s, ok).job.pc)
    requires s.job.pc.StartUnit? ==> s.job.local.unit.None? && s.job.local.port.None?
    requires s.job.pc.StartUnit? || s.job.pc.Register? || s.job.pc.Probe? || s.job.pc.Switch? ==>
      s.job.config.handoff.Some?
    requires s.job.pc.Activate? ==> (s.job.local.port.Some? <==> s.job.config.handoff.Some?)
    ensures StepShows(s, ok)
  {
    hide Upsert, ChoosePort, EntryLog, StartedLog, HealthyLog, ReadyLog, MigrateLog, BuildLog;
  }

  lemma CompletionShows(s: State, ok: bool)
    requires s.job.Deploying? && InMain(s.job.pc) && Rank(s.job.pc) >= 20 && LoggedJob(s.job)
    requires MainStep(s, ok).job.Deploying? && OnMainLine(MainStep(s, ok).job.pc)
    ensures StepShows(s, ok)
  {
    hide Upsert, EntryLog, StartedLog, PublishedLog, ValidatedLog, MigrateLog, BuildLog, Expired;
  }

  lemma ValidationShows(s: State, ok: bool)
    requires s.job.Deploying? && InMain(s.job.pc) && 15 <= Rank(s.job.pc) < 20 && LoggedJob(s.job)
    requires MainStep(s, ok).job.Deploying? && OnMainLine(MainStep(s, ok).job.pc)
    ensures StepShows(s, ok)
  {
    hide Upsert, EntryLog, StartedLog, PublishedLog, ValidatedLog, MigrateLog, BuildLog, Expired;
  }

  lemma BoundaryShows(s: State, ok: bool)
    requires s.job.Deploying? && (s.job.pc.Check? || s.job.pc.Republish? || s.job.pc.Guard?) && LoggedJob(s.job)
    requires OnMainLine(StageStep(s, ok).job.pc)
    ensures StepShows(s, ok)
  {
    hide Upsert, SourceLog, BuildLog, MigrateLog, EntryLog, HealthyLog, StartedLog, ManifestLog;
  }

  /** The deploy has added to its own record since it stored it. */
  predicate Lags(config: Config, pc: Pc) {
    || (pc.Republish? && !config.build.BuildCommand?)
    || pc.StartUnit? || pc.Register? || pc.Activate? || pc.Switch? || pc.Publish? || pc.Drained?
  }

  lemma UpToDate(job: Job)
    requires job.Deploying? && OnMainLine(job.pc) && LoggedJob(job) && !Lags(job.config, job.pc)
    ensures StoredRecord(job) == job.local
  {
    hide SourceLog, CheckoutLog, ManifestLog, BuildLog, MigrateLog, EntryLog, HealthyLog, ValidatedLog;
  }

  lemma EnterShows(s: State, ok: bool)
    requires s.job.Deploying? && s.job.pc.Enter? && LoggedJob(s.job)
    requires OnMainLine(StageStep(s, ok).job.pc)
    ensures StepShows(s, ok)
  {
    var t := StageStep(s, ok);
    UpToDate(s.job);
    if t.job.pc.Republish? && !s.job.config.build.BuildCommand? {
      SkippedBuildShows(s, ok);
    } else {
      EnterKeepsLog(s, ok);
      UpToDate(t.job);
      hide LoggedJob, StoredRecord, Upsert;
      EnterStores(s, ok);
    }
  }

  lemma SkippedBuildShows(s: State, ok: bool)
    requires s.job.Deploying? && s.job.pc.Enter? && LoggedJob(s.job)
    requires StageStep(s, ok).job.pc.Republish? && !s.job.config.build.BuildCommand?
    ensures StepShows(s, ok)
  {
    hide Upsert, BuildLog, MigrateLog;
  }

  lemma EnterStores(s: State, ok: bool)
    requires s.job.Deploying? && s.job.pc.Enter? && OnMainLine(StageStep(s, ok).job.pc)
    requires StageStep(s, ok).job.pc.Republish? ==> s.job.config.build.BuildCommand?
    ensures RecordWritten(s, ok) == Some(StageStep(s, ok).job.local)
    ensures !Lags(s.job.config, StageStep(s, ok).job.pc)
  {
    hide Upsert;
  }

  lemma ExecuteShows(s: State, ok: bool)
    requires s.job.Deploying? && s.job.pc.Execute? && LoggedJob(s.job)
    requires OnMainLine(StageStep(s, ok).job.pc)
    ensures StepShows(s, ok)
  {
    UpToDate(s.job);
    ExecuteStores(s, ok);
    ExecuteKeepsLog(s, ok);
    UpToDate(StageStep(s, ok).job);
    hide LoggedJob, StoredRecord, Upsert, FinishPhase;
  }

  lemma ExecuteStores(s: State, ok: bool)
    requires s.job.Deploying? && s.job.pc.Execute? && LoggedJob(s.job) && OnMainLine(StageStep(s, ok).job.pc)
    ensures StageStep(s, ok).job.local == if RecordWritten(s, ok).Some? then RecordWritten(s, ok).value else s.job.local
    ensures !Lags(s.job.config, StageStep(s, ok).job.pc)
  {
    hide Upsert, FinishPhase, Log;
  }

  lemma InstallShows(s: State, ok: bool)
    requires s.job.Deploying? && s.job.pc.Install? && LoggedJob(s.job)
    requires OnMainLine(StageStep(s, ok).job.pc)
    ensures StepShows(s, ok)
  {
    hide Upsert, FinishPhase, BuildLog, MigrateLog;
  }

  lemma StageShows(s: State, ok: bool)
    requires s.job.Deploying? && InStage(s.job.pc) && LoggedJob(s.job)
    requires OnMainLine(StageStep(s, ok).job.pc)
    ensures StepShows(s, ok)
  {
    hide LoggedJob, StepShows, StageStep;
    if s.job.pc.Enter? {
      EnterShows(s, ok);
    } else if s.job.pc.Execute? {
      ExecuteShows(s, ok);
    } else if s.job.pc.Install? {
      InstallShows(s, ok);
    } else {
      BoundaryShows(s, ok);
    }
  }

  lemma DeployShows(s: State, ok: bool)
    requires Inv(s) && Logged(s) && s.job.Deploying? && OnMainLine(s.job.pc)
    requires DeployStep(s, ok).job.Deploying? && OnMainLine(DeployStep(s, ok).job.pc)
    ensures StepShows(s, ok)
  {
    hide Listed, Shaped, LoggedJob, StepShows, StageStep, MainStep;
    StartFacts(s);
    if InStage(s.job.pc) {
      StageShows(s, ok);
    } else if Rank(s.job.pc) < 5 {
      SourceShows(s, ok);
    } else if Rank(s.job.pc) < 10 {
      ManifestShows(s, ok);
    } else if Rank(s.job.pc) < 15 {
      NodeShows(s, ok);
    } else if Rank(s.job.pc) < 20 {
      ValidationShows(s, ok);
    } else {
      CompletionShows(s, ok);
    }
  }

  lemma StartFacts(s: State)
    requires Inv(s) && s.job.Deploying? && OnMainLine(s.job.pc)
    ensures s.job.pc.StartUnit? ==> s.job.local.unit.None? && s.job.local.port.None?
    ensures s.job.pc.StartUnit? || s.job.pc.Register? || s.job.pc.Probe? || s.job.pc.Switch? ==>
      s.job.config.handoff.Some?
    ensures s.job.pc.Activate? ==> (s.job.local.port.Some? <==> s.job.config.handoff.Some?)
  {
    hide Listed, PreviousNode, Activated, WithUnit;
  }

  // ----- every run -----

  lemma DeployStepShows(s: State, ok: bool)
    requires Inv(s) && Logged(s) && Shown(s) && s.job.Deploying?
    ensures Shown(DeployStep(s, ok))
  {
    hide Inv, Logged, DeployStep, RecordWritten, StoredRecord;
    DeployJob(s, ok);
    OwnStep(s, ok);
    var t := DeployStep(s, ok);
    if t.job.Deploying? && OnMainLine(t.job.pc) {
      if !OnMainLine(s.job.pc) { FailureStaysFailure(s, ok); }
      DeployShows(s, ok);
    }
  }

  lemma StepShown(s: State, e: Event)
    requires Inv(s) && Logged(s) && Shown(s)
    ensures Shown(Apply(s, e))
  {
    hide Shaped, Logged, StoredRecord, DeployStep, RollbackStep, Related;
    match e
    case Deploy(id, config) =>
      if s.job.Idle? && Fresh(s.world, id) { NewDeployShown(s, id, config); }
    case Rollback(_) =>
    case Outcome(ok) =>
      if s.job.Deploying? { DeployStepShows(s, ok); }
      if s.job.RollingBack? { RollbackWrites(s, ok); }
    case _ => CancelShown(s, e);
  }

  lemma NewDeployShown(s: State, id: Id, config: Config)
    requires Listed(s) && s.job.Idle? && Fresh(s.world, id)
    ensures Shown(Apply(s, Deploy(id, config)))
  {
    UpsertNew(s.world.deployments, NewRecord(s.world, id));
    hide Upsert, PreviousNode, Has;
  }

  lemma CancelShown(s: State, e: Event)
    requires Listed(s) && Shown(s) && (e.CancelRead? || e.CancelMark? || e.CancelWrite?)
    ensures Shown(CancelStep(s, e))
  {
    hide StoredRecord, Related, Upsert;
    if e.CancelWrite? && e.request in s.requests && s.requests[e.request].marked {
      UpsertInPlace(s.world.deployments, s.requests[e.request].snapshot.(status := Cancelling));
    }
  }

  lemma {:induction false} RunKeepsShown(s: State, events: seq<Event>)
    requires Inv(s) && Logged(s) && Shown(s)
    ensures Shown(Run(s, events))
    decreases |events|
  {
    hide Inv, Logged, Shown, Apply;
    if events != [] {
      var front := events[..|events| - 1];
      RunKeepsShown(s, front);
      RunKeepsInv(s, front);
      RunKeepsLog(s, front);
      StepShown(Run(s, front), events[|events| - 1]);
    }
  }

  /**
   At every step of every deploy of every run, unless a cancellation has just overwritten it, the stored record
   is the deploy's own; but for the phases not yet stored at seven steps, and the unit until it is registered.
   */
  lemma RecordIsShown(events: seq<Event>)
    requires var s := Run(EMPTY, events); s.job.Deploying? && OnMainLine(s.job.pc)
    ensures
      var s := Run(EMPTY, events);
      var stored := Find(s.world.deployments, s.job.local.id);
      && stored.Some?
      && (stored.value.status == Cancelling || stored.value == StoredRecord(s.job))
      && (!Lags(s.job.config, s.job.pc) ==> StoredRecord(s.job) == s.job.local)
  {
    hide Inv, Logged, Find, StoredRecord;
    var s := Run(EMPTY, events);
    EmptyIsShown();
    RunKeepsInv(EMPTY, events);
    RunKeepsLog(EMPTY, events);
    RunKeepsShown(EMPTY, events);
    OwnRecordFound(s);
    if !Lags(s.job.config, s.job.pc) { UpToDateNow(s); }
  }

  lemma EmptyIsShown()
    ensures Inv(EMPTY) && Logged(EMPTY) && Shown(EMPTY)
  {
    EmptyIsAccounted();
  }

  lemma UpToDateNow(s: State)
    requires Logged(s) && s.job.Deploying? && OnMainLine(s.job.pc) && !Lags(s.job.config, s.job.pc)
    ensures StoredRecord(s.job) == s.job.local
  {
    hide StoredRecord, LoggedJob;
    UpToDate(s.job);
  }

  lemma OwnRecordFound(s: State)
    requires Inv(s) && s.job.Deploying?
    ensures var ds, n := s.world.deployments, |s.job.origin.deployments|;
      n < |ds| && Find(ds, s.job.local.id) == Some(ds[n])
  {
    hide Shaped, Related;
    IndexAt(s.world.deployments, |s.job.origin.deployments|);
  }

  // ----- the record when a workflow stage fails -----

  lemma CommandFailureWrites(s: State, ok: bool)
    requires s.job.Deploying? && (s.job.pc.Execute? || s.job.pc.Install?) && LoggedJob(s.job)
    requires var t := StageStep(s, ok); t.job.Deploying? && !OnMainLine(t.job.pc)
    ensures RecordWritten(s, ok) == Some(s.job.local.(status := Started, phases := LeftLog(s.job.config, s.job.pc)))
  {
    if s.job.pc.Execute? { ExecuteLog(s); } else { FinishedStage(s.job.config, Build, s.job.local, PhaseFailed); }
    hide Upsert, Finished, BeforeStage, StageName, StageDone, BuildLog;
  }

  lemma StageFailureWrites(s: State, ok: bool)
    requires s.job.Deploying? && InStage(s.job.pc) && LoggedJob(s.job)
    requires var t := StageStep(s, ok); t.job.Deploying? && !OnMainLine(t.job.pc)
    ensures RecordWritten(s, ok) == Some(s.job.local.(
      status := if s.job.pc.Check? || s.job.pc.Guard? then Cancelled else Started,
      phases := LeftLog(s.job.config, s.job.pc)))
  {
    hide StageStep, RecordWritten, LoggedJob;
    if s.job.pc.Execute? || s.job.pc.Install? {
      CommandFailureWrites(s, ok);
    } else {
      BoundaryFailureWrites(s, ok);
    }
  }

  lemma BoundaryFailureWrites(s: State, ok: bool)
    requires s.job.Deploying? && InStage(s.job.pc) && !s.job.pc.Execute? && !s.job.pc.Install? && LoggedJob(s.job)
    requires var t := StageStep(s, ok); t.job.Deploying? && !OnMainLine(t.job.pc)
    ensures RecordWritten(s, ok) == Some(s.job.local.(
      status := if s.job.pc.Check? || s.job.pc.Guard? then Cancelled else Started,
      phases := LeftLog(s.job.config, s.job.pc)))
  {
    hide Upsert, BeforeStage, SourceLog, BuildLog, MigrateLog, EntryLog, HealthyLog;
  }

  /** The failure or cancellation of a workflow stage is stored before the deploy undoes anything. */
  lemma FailureIsStored(s: State, ok: bool)
    requires Inv(s) && Logged(s) && s.job.Deploying? && InStage(s.job.pc)
    requires var t := DeployStep(s, ok); t.job.Deploying? && !OnMainLine(t.job.pc)
    ensures Find(DeployStep(s, ok).world.deployments, s.job.local.id) == Some(s.job.local.(
      status := if s.job.pc.Check? || s.job.pc.Guard? then Cancelled else Started,
      phases := LeftLog(s.job.config, s.job.pc)))
  {
    hide Inv, LoggedJob, LeftLog, RecordWritten, StageStep, Find;
    StageFailureWrites(s, ok);
    RecordIsStored(s, ok, RecordWritten(s, ok).value);
  }

  // ----- what the draining phase says of the units -----

  /** The units started, and which one is stopped when a deploy has drained, as its last phase says. */
  ghost predicate DrainTold(s: State) {
    s.job.Deploying? && (s.job.pc.Drained? || s.job.pc.Prune?) ==>
      var phases, started := s.job.local.phases, WithUnit(s.job.origin.running, s.job.local);
      && phases != [] && phases[|phases| - 1].name == Draining
      && s.world.running == (if phases[|phases| - 1].status.PhaseCompleted? then started - UnitsOf(s.job.node)
                             else started)
  }

  lemma DrainTells(s: State, ok: bool)
    requires Inv(s) && DrainTold(s) && s.job.Deploying?
    ensures DrainTold(DeployStep(s, ok))
  {
    hide Listed, DeployStep, OwnRecord, Undoing, Aborting;
    DeployJob(s, ok);
    var t := DeployStep(s, ok);
    if t.job.Deploying? && (t.job.pc.Drained? || t.job.pc.Prune?) {
      DrainsFrom(s, ok);
      DrainStep(s, ok);
    }
  }

  lemma DrainsFrom(s: State, ok: bool)
    requires s.job.Deploying?
    requires var t := DeployStep(s, ok); t.job.Deploying? && (t.job.pc.Drained? || t.job.pc.Prune?)
    ensures s.job.pc.Drain? || s.job.pc.Drained?
    ensures s.job.pc.Drain? <==> DeployStep(s, ok).job.pc.Drained?
  {
    hide Upsert, FinishPhase, Activated, ChoosePort, Expired;
  }

  lemma DrainStep(s: State, ok: bool)
    requires Shaped(s) && DrainTold(s) && s.job.Deploying? && (s.job.pc.Drain? || s.job.pc.Drained?)
    ensures DrainTold(DeployStep(s, ok))
  {
    hide Upsert, OwnRecord, Activated, Undoing, Aborting, Restorable;
  }

  lemma StepDrains(s: State, e: Event)
    requires Inv(s) && DrainTold(s)
    ensures DrainTold(Apply(s, e))
  {
    hide Inv, DeployStep, RollbackStep, CancelStep;
    match e
    case Deploy(_, _) =>
    case Rollback(_) =>
    case Outcome(ok) =>
      if s.job.Deploying? { DrainTells(s, ok); }
      if s.job.RollingBack? { RollbackWrites(s, ok); }
    case _ => CancelEffect(s, e);
  }

  /**
   When a deploy has drained, its last phase says what became of the previous unit: Completed if and only if
   there was one and it is stopped; otherwise every unit that ran still runs.
   */
  lemma {:induction false} DrainingIsTold(s: State, events: seq<Event>)
    requires Inv(s) && DrainTold(s)
    ensures DrainTold(Run(s, events))
    decreases |events|
  {
    hide Inv, DrainTold, Apply;
    if events != [] {
      var front := events[..|events| - 1];
      DrainingIsTold(s, front);
      RunKeepsInv(s, front);
      StepDrains(Run(s, front), events[|events| - 1]);
    }
  }

  // ----- markers -----

  /** A record that says so was cancelled: its marker exists. */
  ghost predicate Marked(s: State) {
    && (forall i :: 0 <= i < |s.world.deployments| && s.world.deployments[i].status in {Cancelling, Cancelled} ==>
          s.world.deployments[i].id in s.world.markers)
    && (forall k :: k in s.requests && s.requests[k].marked ==> s.requests[k].snapshot.id in s.world.markers)
    && (s.job.Deploying? ==> OwnMarked(s))
  }

  lemma UpsertMarked(ds: seq<Deployment>, d: Deployment, markers: set<Id>)
    requires forall i :: 0 <= i < |ds| && ds[i].status in {Cancelling, Cancelled} ==> ds[i].id in markers
    requires d.status in {Cancelling, Cancelled} ==> d.id in markers
    ensures var es := Upsert(ds, d);
      forall i :: 0 <= i < |es| && es[i].status in {Cancelling, Cancelled} ==> es[i].id in markers
  {
  }

  /** The part about the running deploy's own record. */
  predicate OwnMarked(s: State)
    requires s.job.Deploying?
  {
    && s.job.local.status != Cancelling
    && (s.job.local.status == Cancelled ==> s.job.local.id in s.world.markers)
    && (s.job.pc.Undo? && s.job.pc.phase == Cancellation ==> s.job.local.id in s.world.markers)
  }

  lemma WrittenMarked(s: State, ok: bool)
    requires s.job.Deploying? && OwnMarked(s) && RecordWritten(s, ok).Some?
    ensures var d := RecordWritten(s, ok).value;
      d.status != Cancelling && (d.status == Cancelled ==> s.job.local.id in s.world.markers)
  {
    hide FinishPhase;
  }

  lemma StageMarked(s: State, ok: bool)
    requires s.job.Deploying? && InStage(s.job.pc) && OwnMarked(s)
    ensures var t := StageStep(s, ok); t.world.markers == s.world.markers && t.job.Deploying? && OwnMarked(t)
  {
    hide Upsert, FinishPhase;
  }

  lemma MainMarked(s: State, ok: bool)
    requires s.job.Deploying? && InMain(s.job.pc) && OwnMarked(s)
    ensures var t := MainStep(s, ok); t.world.markers == s.world.markers && (t.job.Deploying? ==> OwnMarked(t))
  {
    hide Upsert, ChoosePort, Expired;
  }

  lemma FailureMarked(s: State, ok: bool)
    requires s.job.Deploying? && !OnMainLine(s.job.pc) && OwnMarked(s)
    ensures var t := DeployStep(s, ok); t.world.markers == s.world.markers && (t.job.Deploying? ==> OwnMarked(t))
  {
    hide Upsert, Activated, MainStep, StageStep;
  }

  lemma DeployMarked(s: State, ok: bool)
    requires Inv(s) && Marked(s) && s.job.Deploying?
    ensures Marked(DeployStep(s, ok))
  {
    hide Listed, Progress, Undoing, Aborting, RecordWritten, StageStep, MainStep, UndoStepOf, AbortStepOf, Upsert;
    DeployWrites(s, ok);
    DeployJob(s, ok);
    if InStage(s.job.pc) {
      StageMarked(s, ok);
    } else if InMain(s.job.pc) {
      MainMarked(s, ok);
    } else {
      FailureMarked(s, ok);
    }
    if RecordWritten(s, ok).Some? {
      WrittenMarked(s, ok);
      UpsertMarked(s.world.deployments, RecordWritten(s, ok).value, s.world.markers);
    }
  }

  lemma StepMarked(s: State, e: Event)
    requires Inv(s) && Marked(s)
    ensures Marked(Apply(s, e))
  {
    hide Listed, Shaped, DeployStep, RollbackStep, Upsert, RollbackTarget, ActiveNode, PreviousNode, Fresh;
    var ds, markers := s.world.deployments, s.world.markers;
    match e
    case Deploy(id, config) => UpsertMarked(ds, NewRecord(s.world, id), markers);
    case Rollback(_) =>
    case Outcome(ok) =>
      if s.job.Deploying? { DeployMarked(s, ok); }
      if s.job.RollingBack? { RollbackMarked(s, ok); }
    case CancelWrite(k) =>
      if k in s.requests && s.requests[k].marked {
        UpsertMarked(ds, s.requests[k].snapshot.(status := Cancelling), markers);
      }
    case _ =>
  }

  lemma RollbackMarked(s: State, ok: bool)
    requires Marked(s) && s.job.RollingBack?
    ensures Marked(RollbackStep(s, ok))
  {
    hide RollbackStep, Upsert;
    RollbackWrites(s, ok);
    RollbackKeepsMarkers(s, ok);
    UpsertMarked(s.world.deployments, RollbackRecord(s.job.target, s.job.record, s.job.before), s.world.markers);
  }

  lemma RollbackKeepsMarkers(s: State, ok: bool)
    requires s.job.RollingBack?
    ensures RollbackStep(s, ok).world.markers == s.world.markers
  {
    hide Upsert;
  }

  /** In every state of every run a record is Cancelling or Cancelled only if its marker was written. */
  lemma {:induction false} CancelledIsMarked(s: State, events: seq<Event>)
    requires Inv(s) && Marked(s)
    ensures Marked(Run(s, events))
    decreases |events|
  {
    hide Inv, Marked, Apply;
    if events != [] {
      var front := events[..|events| - 1];
      CancelledIsMarked(s, front);
      RunKeepsInv(s, front);
      StepMarked(Run(s, front), events[|events| - 1]);
    }
  }
}
