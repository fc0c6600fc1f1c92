/** The live release always exists on disk, and what the ends of operations leave. */
module ReleaseSafety {
  import opened Results
  import opened Releases
  import opened ReleaseInvariant
  import opened ReleaseHistory

  predicate NoDangling(w: World) {
    w.current.Some? ==> w.current.value in w.directories
  }

  /** `current` is absent, or names an existing directory that a Completed deployment recorded. */
  ghost predicate Safe(w: World) {
    NoDangling(w) && (w.current.Some? ==> w.current.value in ReleasesOf(History(w)))
  }

  /** nginx cannot be switched to the first release of an application: `current` already names it. */
  predicate Stranding(s: State, e: Event) {
    s.job.Deploying? && s.job.pc.Switch? && e == Outcome(false) && !Restorable(s.job.origin)
  }

  predicate NeverStranded(s: State, events: seq<Event>)
    decreases |events|
  {
    events == [] ||
    (NeverStranded(s, events[..|events| - 1]) && !Stranding(Run(s, events[..|events| - 1]), events[|events| - 1]))
  }

  ghost predicate LinkedState(s: State) {
    match s.job
    case Idle => NoDangling(s.world)
    case RollingBack(origin, _, _, _, _, _) => NoDangling(origin)
    case Deploying(origin, _, d, _, pc) => NoDangling(origin) && (pc.Abort? && Activated(d) ==> Restorable(origin))
  }

  // ----- one step -----

  /** A completed deploy ends with its release live and on disk, whatever became of its record. */
  lemma PruneEndsDeploy(s: State, ok: bool)
    requires Inv(s) && s.job.Deploying? && s.job.pc.Prune?
    ensures var t, origin, d := DeployStep(s, ok), s.job.origin, s.job.local;
      && t.job.Idle?
      && t.world == s.world.(directories := s.world.directories - Expired(s.world, s.job.config.retention))
      && s.world.directories == origin.directories + {d.release}
      && t.world.current == Some(d.release) && d.release in t.world.directories && d.release == ReleaseDir(d.id)
      && NoDangling(t.world)
  {
    hide PreviousNode, Listed, CompletedOf;
  }

  lemma FailureEnds(s: State, ok: bool)
    requires Inv(s) && s.job.Deploying? && (s.job.pc.Undo? || s.job.pc.Abort?) && DeployStep(s, ok).job.Idle?
    ensures var t, origin, d := DeployStep(s, ok), s.job.origin, s.job.local;
      && t.world.directories == origin.directories
      && t.world.running == origin.running
      && t.world.current == (if s.job.pc.Undo? then (if Restorable(origin) then origin.current else None)
                             else if Activated(d) && !Restorable(origin) then Some(d.release)
                             else origin.current)
      && t.world.upstream
           == ResetPort(if s.job.pc.Undo? && d.unit.Some? then d.port else origin.upstream, d, s.job.node)
  {
    hide PreviousNode, Upsert, Listed, Activated;
    assert s.job.pc.Abort? ==> s.job.pc.abort.AbortRecord?;
  }

  lemma RollbackEnds(s: State, ok: bool)
    requires Inv(s) && s.job.RollingBack? && RollbackStep(s, ok).job.Idle?
    ensures var t, origin, target := RollbackStep(s, ok), s.job.origin, s.job.target;
      && t.world.directories == origin.directories
      && (t.world.current == origin.current || t.world.current == Some(target.release))
      && target in History(origin) && target.release in origin.directories
  {
    hide ActiveNode, Upsert, Listed;
  }

  lemma AbortOnlyAfterSwitch(s: State, ok: bool)
    requires s.job.Deploying? && Shaped(s) && !s.job.pc.Abort?
    requires var t := DeployStep(s, ok); t.job.Deploying? && t.job.pc.Abort? && Activated(t.job.local)
    ensures s.job.pc.Switch? && !ok
  {
    hide OwnRecord, Progress, Undoing, Aborting, DeployStep;
    if !s.job.pc.Switch? || ok {
      AbortFromBeforeActivation(s, ok);
    }
  }

  lemma StageAbortsBeforeActivation(s: State, ok: bool)
    requires s.job.Deploying? && InStage(s.job.pc) && Progress(s)
    ensures var t := StageStep(s, ok); t.job.Deploying? && t.job.pc.Abort? ==> !Activated(t.job.local)
  {
    hide Upsert, Activated, FinishPhase;
    var d := s.job.local;
    StatusKeepsActivation(d, d.healthy, Cancelled);
    if s.job.pc.Execute? || s.job.pc.Install? {
      FinishedKeepsActivation(d, if s.job.pc.Install? then BuildCommands else StageName(s.job.pc.stage), PhaseFailed);
    } else if s.job.pc.Enter? {
      PushKeepsActivation(d, StageName(s.job.pc.stage), PhaseRunning);
    }
  }

  lemma AbortFromBeforeActivation(s: State, ok: bool)
    requires s.job.Deploying? && !s.job.pc.Abort? && (s.job.pc.Switch? ==> ok)
    requires s.job.pc.Undo? || Progress(s)
    ensures var t := DeployStep(s, ok); t.job.Deploying? && t.job.pc.Abort? ==> !Activated(t.job.local)
  {
    hide Upsert, Activated, StageStep;
    if InStage(s.job.pc) { StageAbortsBeforeActivation(s, ok); }
  }

  lemma DeployStepKeepsLink(s: State, ok: bool)
    requires Inv(s) && LinkedState(s) && s.job.Deploying? && !Stranding(s, Outcome(ok))
    ensures LinkedState(DeployStep(s, ok))
  {
    hide Listed, OwnRecord, Progress, Undoing, Aborting, Activated, DeployStep;
    DeployJob(s, ok);
    var t := DeployStep(s, ok);
    if t.job.Idle? {
      if s.job.pc.Prune? {
        PruneEndsDeploy(s, ok);
      } else {
        FailureEnds(s, ok);
      }
    } else if t.job.pc.Abort? && !s.job.pc.Abort? && Activated(t.job.local) {
      AbortOnlyAfterSwitch(s, ok);
    }
  }

  lemma RollbackStepKeepsLink(s: State, ok: bool)
    requires Inv(s) && LinkedState(s) && s.job.RollingBack?
    ensures LinkedState(RollbackStep(s, ok))
  {
    hide Listed, RollingForward, History, RollbackStep;
    RollbackWrites(s, ok);
    if RollbackStep(s, ok).job.Idle? {
      RollbackEnds(s, ok);
    }
  }

  lemma StepKeepsLink(s: State, e: Event)
    requires Inv(s) && LinkedState(s) && !Stranding(s, e)
    ensures LinkedState(Apply(s, e))
  {
    hide Listed, Shaped, DeployStep, RollbackStep, CancelStep;
    match e
    case Deploy(_, _) =>
    case Rollback(_) =>
    case Outcome(ok) =>
      if s.job.Deploying? {
        DeployStepKeepsLink(s, ok);
      } else if s.job.RollingBack? {
        RollbackStepKeepsLink(s, ok);
      }
    case _ => CancelEffect(s, e);
  }

  /** While an operation runs `current` does not dangle either. */
  lemma LinkedNow(s: State)
    requires Inv(s) && LinkedState(s)
    ensures NoDangling(s.world)
  {
    hide PreviousNode, ActiveNode, Listed;
  }

  // ----- whole runs -----

  /** `current` never dangles in a run that never strands a release, whatever cancellations write and when. */
  lemma {:induction false} NeverDangles(s: State, events: seq<Event>)
    requires Inv(s) && LinkedState(s) && NeverStranded(s, events)
    ensures LinkedState(Run(s, events)) && NoDangling(Run(s, events).world)
    decreases |events|
  {
    hide Inv, LinkedState, Apply, NoDangling, Stranding;
    if events != [] {
      var front := events[..|events| - 1];
      NeverDangles(s, front);
      RunKeepsInv(s, front);
      StepKeepsLink(Run(s, front), events[|events| - 1]);
    }
    RunKeepsInv(s, events);
    LinkedNow(Run(s, events));
  }
}
