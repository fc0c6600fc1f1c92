/** What operations leave behind, over whole runs; and exactly when release safety is lost. */
module ReleaseOutcomes {
  import opened Results
  import opened Releases
  import opened ReleaseInvariant
  import opened ReleaseHistory
  import opened ReleaseSafety
  import opened ReleaseCompletions
  import opened ReleaseProgress

  // ----- release safety for applications without a Node handoff -----

  predicate WithoutHandoff(events: seq<Event>) {
    forall i :: 0 <= i < |events| && events[i].Deploy? ==> events[i].config.handoff.None?
  }

  lemma StepWithoutHandoff(s: State, e: Event)
    requires Inv(s) && (s.job.Deploying? ==> s.job.config.handoff.None?) && (e.Deploy? ==> e.config.handoff.None?)
    ensures !Stranding(s, e)
    ensures Apply(s, e).job.Deploying? ==> Apply(s, e).job.config.handoff.None?
  {
    hide Listed, OwnRecord, DeployStep, RollbackStep, CancelStep;
    match e
    case Outcome(ok) =>
      if s.job.Deploying? { DeployJob(s, ok); }
      if s.job.RollingBack? { RollbackWrites(s, ok); }
    case Deploy(_, _) =>
    case Rollback(_) =>
    case _ => CancelEffect(s, e);
  }

  lemma {:induction false} NothingStrands(s: State, events: seq<Event>)
    requires Inv(s) && (s.job.Deploying? ==> s.job.config.handoff.None?) && WithoutHandoff(events)
    ensures NeverStranded(s, events)
    ensures var t := Run(s, events); t.job.Deploying? ==> t.job.config.handoff.None?
    decreases |events|
  {
    hide Inv, Stranding, Apply;
    if events != [] {
      var front := events[..|events| - 1];
      NothingStrands(s, front);
      RunKeepsInv(s, front);
      StepWithoutHandoff(Run(s, front), events[|events| - 1]);
    }
  }

  /** Between operations, exactly when `current` names a directory that a Completed deployment recorded. */
  lemma SafeExactly(events: seq<Event>)
    requires Run(EMPTY, events).job.Idle?
    ensures var w := Run(EMPTY, events).world;
      Safe(w) <==> NoDangling(w) && (w.current.Some? ==> w.current.value.id !in Demoted(EMPTY, events))
  {
    hide CompletedOf, Standing, Inv, Run;
    var s, cs, gone := Run(EMPTY, events), Completions(EMPTY, events), Demoted(EMPTY, events);
    HistoryOfRuns(events);
    var w := s.world;
    if NoDangling(w) && w.current.Some? {
      var c :| c in cs && c.release == w.current.value;
      StandingMembers(cs, gone);
      if w.current.value in ReleasesOf(History(w)) {
        var r :| r in History(w) && r.release == w.current.value;
        assert r in cs && Proper(r) && Proper(c);
      }
    }
  }

  /**
   After any sequence of deploys, each of whose phases may fail or be cancelled, rollbacks, prunes and
   cancellations, `current` is absent or names an existing directory.  Between operations a Completed
   deployment recorded that directory, if and only if no cancellation wrote its record back after the
   deploy had written it for the last time.
   */
  lemma LiveReleaseIsSafe(events: seq<Event>)
    requires WithoutHandoff(events)
    ensures var s := Run(EMPTY, events); var w := s.world;
      && NoDangling(w)
      && (s.job.Idle? ==> (Safe(w) <==> (w.current.Some? ==> w.current.value.id !in Demoted(EMPTY, events))))
  {
    hide Safe, NoDangling, WithoutHandoff, Inv, Run, LinkedState;
    EmptyIsAccounted();
    NothingStrands(EMPTY, events);
    NeverDangles(EMPTY, events);
    if Run(EMPTY, events).job.Idle? { SafeExactly(events); }
  }

  // ----- a late cancellation -----

  /**
   In any state, a cancellation's write takes its release from those that Completed deployments
   recorded, and no other.
   */
  lemma LateWriteLosesRelease(s: State, k: nat)
    requires Inv(s) && k in s.requests && s.requests[k].marked
    ensures var t, id := Apply(s, CancelWrite(k)), s.requests[k].snapshot.id;
      && ReleasesOf(History(t.world)) == ReleasesOf(History(s.world)) - {ReleaseDir(id)}
      && (Safe(s.world) ==> (Safe(t.world) <==> s.world.current != Some(ReleaseDir(id))))
  {
    hide Shaped, Related, CompletedOf, Standing, Has;
    var ds, r := s.world.deployments, s.requests[k].snapshot.(status := Cancelling);
    assert Has(ds, r.id);
    UpsertInPlace(ds, r);
    HasIfFound(ds, r.id);
    var es, at := Upsert(ds, r), IndexOf(ds, r.id);
    assert DistinctRecords(ds) && Overwrites(ds, at, r, es);
    HistoryOfDemotion(ds, at, r, es);
    StandingMembers(CompletedOf(ds), {r.id});
    CompletedAreProper(ds);
  }

  lemma CompletedAreProper(ds: seq<Deployment>)
    requires Records(ds)
    ensures forall d :: d in CompletedOf(ds) ==> d.release == ReleaseDir(d.id) && Proper(d)
  {
    forall d | d in CompletedOf(ds)
      ensures d.release == ReleaseDir(d.id) && Proper(d)
    {
      var i :| 0 <= i < |ds| && ds[i] == d;
      assert Proper(ds[i]);
    }
  }

  /** Such a write can happen: the record is read while the deploy runs and written back after it completed. */
  lemma LateWriteHappens(id: Id, config: Config) returns (events: seq<Event>)
    requires config.handoff.None?
    ensures WithoutHandoff(events)
    ensures var t := Run(EMPTY, events); t.job.Idle? && t.world.current == Some(ReleaseDir(id)) && !Safe(t.world)
  {
    hide WithoutHandoff, Apply, Inv, Undisturbed, CompletedOf;
    var first, last := [Deploy(id, config), CancelRead(0, id)], [CancelMark(0), CancelWrite(0)];
    EmptyIsAccounted();
    LateWriteStart(EMPTY, id, config);
    var s := Run(EMPTY, first);
    var n := UndisturbedDeployCompletes(s);
    events := first + Oks(n) + last;
    RunAppend(EMPTY, first, Oks(n));
    RunAppend(EMPTY, first + Oks(n), last);
    WithoutHandoffHere(id, config, n);
    LateWriteEnd(Run(s, Oks(n)), id);
  }

  lemma WithoutHandoffHere(id: Id, config: Config, n: nat)
    requires config.handoff.None?
    ensures WithoutHandoff([Deploy(id, config), CancelRead(0, id)] + Oks(n) + [CancelMark(0), CancelWrite(0)])
  {
  }

  lemma RunTwo(s: State, e: Event, f: Event)
    ensures Run(s, [e, f]) == Apply(Apply(s, e), f)
  {
    assert [e, f][..1] == [e] && [e][..0] == [];
    assert Run(s, [e]) == Apply(s, e);
  }

  /** A deploy begins and its record is read for a cancellation. */
  lemma LateWriteStart(s: State, id: Id, config: Config)
    requires Inv(s) && s.job.Idle? && s.requests == map[] && Fresh(s.world, id) && id !in s.world.markers
    requires config.handoff.Some? ==> config.handoff.value.Valid()
    ensures var t := Run(s, [Deploy(id, config), CancelRead(0, id)]);
      && Undisturbed(t) && t.job == Deploying(s.world, config, NewRecord(s.world, id), PreviousNode(s.world), Fetch)
      && t.world == s.world.(deployments := s.world.deployments + [NewRecord(s.world, id)])
      && t.requests == map[0 := Request(NewRecord(s.world, id), false)]
  {
    RunTwo(s, Deploy(id, config), CancelRead(0, id));
    StepKeepsInv(s, Deploy(id, config));
    StepKeepsInv(Apply(s, Deploy(id, config)), CancelRead(0, id));
    assert Listed(s);
    hide Inv;
    ReadAtStart(s, id, config);
  }

  lemma ReadAtStart(s: State, id: Id, config: Config)
    requires Listed(s) && s.job.Idle? && s.requests == map[] && Fresh(s.world, id)
    ensures var d := NewRecord(s.world, id);
      Apply(Apply(s, Deploy(id, config)), CancelRead(0, id))
        == State(s.world.(deployments := s.world.deployments + [d]),
                 Deploying(s.world, config, d, PreviousNode(s.world), Fetch), map[0 := Request(d, false)])
  {
    hide PreviousNode, Has, Upsert, Find;
    UpsertNew(s.world.deployments, NewRecord(s.world, id));
    FindAfterUpsert(s.world.deployments, NewRecord(s.world, id), id);
  }

  /** The marker is written, and the record written back. */
  lemma LateWriteEnd(s: State, id: Id)
    requires Inv(s) && s.job.Idle? && 0 in s.requests && s.requests[0].snapshot.id == id
    ensures var t := Run(s, [CancelMark(0), CancelWrite(0)]);
      && Inv(t) && t.job.Idle? && t.world.current == s.world.current && t.world.directories == s.world.directories
      && t.world.running == s.world.running && t.world.upstream == s.world.upstream
      && t.world.markers == s.world.markers + {id}
      && ReleasesOf(History(t.world)) == ReleasesOf(History(s.world)) - {ReleaseDir(id)}
      && History(t.world) == Standing(History(s.world), {id})
      && |t.world.deployments| == |s.world.deployments| && t.requests == s.requests - {0}
      && forall i :: 0 <= i < |s.world.deployments| ==>
           if s.world.deployments[i].id == id then
             t.world.deployments[i].id == id && t.world.deployments[i].status == Cancelling
           else t.world.deployments[i] == s.world.deployments[i]
  {
    hide Shaped, CompletedOf, Standing, Safe, Has, Related;
    RunTwo(s, CancelMark(0), CancelWrite(0));
    var u := Apply(s, CancelMark(0));
    StepKeepsInv(s, CancelMark(0));
    StepKeepsInv(u, CancelWrite(0));
    LateWriteLosesRelease(u, 0);
    var ds, r := u.world.deployments, u.requests[0].snapshot.(status := Cancelling);
    assert Has(ds, r.id);
    UpsertInPlace(ds, r);
    HasIfFound(ds, r.id);
    assert DistinctRecords(ds) && Overwrites(ds, IndexOf(ds, r.id), r, Upsert(ds, r));
    HistoryOfDemotion(ds, IndexOf(ds, r.id), r, Upsert(ds, r));
  }

  // ----- a stranded first release -----

  /** A failed preparation leaves `current` dangling exactly when it had activated the first release. */
  lemma AbortedDeployDangles(s: State, ok: bool)
    requires Inv(s) && s.job.Deploying? && s.job.pc.Abort? && DeployStep(s, ok).job.Idle?
    requires NoDangling(s.job.origin)
    ensures NoDangling(DeployStep(s, ok).world) <==> !(Activated(s.job.local) && s.job.origin.current.None?)
  {
    hide DeployStep, Listed, Aborting, PreviousNode;
    FailureEnds(s, ok);
  }

  ghost predicate Stranded(s: State, origin: World) {
    s.job.Deploying? && s.job.origin == origin && s.job.pc.Abort? && Activated(s.job.local)
  }

  lemma StrandedStaysStranded(s: State, origin: World, e: Event)
    requires Stranded(s, origin) && !Apply(s, e).job.Idle?
    ensures Stranded(Apply(s, e), origin)
  {
    hide DeployStep, CancelStep, Activated;
    match e
    case Outcome(ok) => DeployJob(s, ok);
    case Deploy(_, _) =>
    case Rollback(_) =>
    case _ => CancelEffect(s, e);
  }

  lemma {:induction false} StrandedUntilTheEnd(s: State, origin: World, events: seq<Event>)
    requires Stranded(s, origin) && Busy(s, events)
    ensures Stranded(Run(s, events), origin)
    decreases |events|
  {
    hide Stranded, Apply;
    if events != [] {
      StrandedUntilTheEnd(s, origin, events[..|events| - 1]);
      StrandedStaysStranded(Run(s, events[..|events| - 1]), origin, events[|events| - 1]);
    }
  }

  /** Every deploy that strands its release leaves `current` naming a directory it has deleted. */
  lemma StrandingDangles(s: State, events: seq<Event>, last: Event)
    requires Inv(s) && Stranding(s, Outcome(false)) && NoDangling(s.job.origin)
    requires var t := Apply(s, Outcome(false)); Busy(t, events) && Apply(Run(t, events), last).job.Idle?
    ensures var t := Apply(s, Outcome(false)); !NoDangling(Apply(Run(t, events), last).world)
  {
    hide DeployStep, RollbackStep, CancelStep, NoDangling, Listed, Aborting;
    var t := Apply(s, Outcome(false));
    var origin := s.job.origin;
    assert origin.current.None? by { DanglingOrNone(origin); }
    StepKeepsInv(s, Outcome(false));
    assert Stranded(t, origin) by { StrandingStrands(s); }
    StrandedUntilTheEnd(t, origin, events);
    RunKeepsInv(t, events);
    var u := Run(t, events);
    if last.Outcome? {
      AbortedDeployDangles(u, last.ok);
    } else if !last.Deploy? && !last.Rollback? {
      CancelEffect(u, last);
    }
  }

  lemma DanglingOrNone(origin: World)
    requires NoDangling(origin) && !Restorable(origin)
    ensures origin.current.None?
  {
  }

  lemma StrandingStrands(s: State)
    requires Inv(s) && Stranding(s, Outcome(false))
    ensures Stranded(Apply(s, Outcome(false)), s.job.origin)
  {
    hide Listed, PreviousNode, Fresh;
  }

  /** The first deploy of any application with a valid handoff can be stranded. */
  lemma {:induction false} SwitchIsReached(s: State) returns (n: nat)
    requires Undisturbed(s) && Rank(s.job.pc) <= 14 && s.job.config.handoff.Some?
    ensures var t := Run(s, Oks(n)); Inv(t) && t.job.Deploying? && t.job.pc.Switch? && t.job.origin == s.job.origin
    decreases StepsLeft(s.job)
  {
    hide StepsLeft, Apply, Inv;
    if s.job.pc.Switch? {
      n := 0;
    } else {
      OkStep(s);
      var t := Apply(s, Outcome(true));
      var m := SwitchIsReached(t);
      n := m + 1;
      assert Oks(n) == [Outcome(true)] + Oks(m);
      RunOne(s, Outcome(true), Oks(m));
    }
  }

  lemma StrandingHappens(id: Id, config: Config) returns (n: nat)
    requires config.handoff.Some? && config.handoff.value.Valid()
    ensures Stranding(Run(EMPTY, [Deploy(id, config)] + Oks(n)), Outcome(false))
  {
    EmptyIsAccounted();
    var s := Apply(EMPTY, Deploy(id, config));
    StepKeepsInv(EMPTY, Deploy(id, config));
    n := SwitchIsReached(s);
    RunOne(EMPTY, Deploy(id, config), Oks(n));
  }

  // ----- one whole deploy -----

  lemma {:induction false} BusyDeploy(s: State, events: seq<Event>)
    requires s.job.Deploying? && Busy(s, events)
    ensures var t := Run(s, events);
      t.job.Deploying? && t.job == s.job.(local := t.job.local, pc := t.job.pc) && t.job.local.id == s.job.local.id
    decreases |events|
  {
    hide DeployStep, RollbackStep, CancelStep;
    if events != [] {
      var t := Run(s, events[..|events| - 1]);
      BusyDeploy(s, events[..|events| - 1]);
      match events[|events| - 1]
      case Outcome(ok) => DeployJob(t, ok);
      case Deploy(_, _) =>
      case Rollback(_) =>
      case _ => CancelEffect(t, events[|events| - 1]);
    }
  }

  /** A failed deploy left `current`, the directories and the units as they were. */
  predicate NoOp(before: World, after: World) {
    && after.current == before.current
    && after.directories == before.directories
    && after.running == before.running
  }

  /** nginx proxied to the live Node release, or the deploy had no part in it. */
  predicate UpstreamOwned(w: World, config: Config) {
    config.handoff.None? || (PortOf(PreviousNode(w)).Some? && PortOf(PreviousNode(w)) == w.upstream)
  }

  lemma FailedDeployIsNoOp(s: State, ok: bool)
    requires Inv(s) && s.job.Deploying? && !s.job.pc.Prune? && DeployStep(s, ok).job.Idle?
    requires Restorable(s.job.origin)
    ensures NoOp(s.job.origin, DeployStep(s, ok).world)
    ensures UpstreamOwned(s.job.origin, s.job.config) ==> DeployStep(s, ok).world.upstream == s.job.origin.upstream
  {
    hide DeployStep, Listed, Aborting, Undoing, PreviousNode;
    DeployJob(s, ok);
    FailureEnds(s, ok);
  }

  /** Records overwritten by the cancellations of a run aside, the list of Completed records after a deploy. */
  lemma {:induction false} BusyCompletions(s: State, events: seq<Event>)
    requires Inv(s) && s.job.Deploying? && !s.job.pc.Prune? && Busy(s, events)
    ensures var u, cs := Run(s, events), Completions(s, events);
      u.job.Deploying? && if u.job.pc.Prune? then |cs| == 1 && cs[0].id == s.job.local.id else cs == []
    decreases |events|
  {
    hide Inv, Apply, DeployStep, Rank;
    if events != [] {
      var front, e := events[..|events| - 1], events[|events| - 1];
      var u := Run(s, front);
      BusyCompletions(s, front);
      BusyDeploy(s, front);
      BusyDeploy(s, events);
      RunKeepsInv(s, front);
      BusyCompletionStep(u, e);
    }
  }

  lemma BusyCompletionStep(u: State, e: Event)
    requires Inv(u) && u.job.Deploying? && Apply(u, e).job.Deploying?
    ensures var t := Apply(u, e);
      if u.job.pc.Drained? && e.Outcome? then t.job.pc.Prune? && Completion(u, e) == [u.job.local]
      else Completion(u, e) == [] && (t.job.pc.Prune? <==> u.job.pc.Prune?)
  {
    hide DeployStep, RollbackStep, CancelStep, Inv, RecordWritten;
    match e
    case Outcome(ok) =>
      OwnRecordNow(u);
      hide OwnRecord;
      WhenWritten(u, ok);
      DeployJob(u, ok);
      if u.job.pc.Prune? { PruneEndsDeploy(u, ok); }
    case Deploy(_, _) =>
    case Rollback(_) =>
    case _ => CancelEffect(u, e);
  }

  /** The state with which a deploy begins accounts for the Completed records before it. */
  lemma HistoryIsAccounted(s: State)
    requires Inv(s) && s.job.Idle?
    ensures Accounted(s, History(s.world), {})
  {
    hide CompletedOf, Standing, Shaped;
    var ds, cs := s.world.deployments, History(s.world);
    StandingAll(cs, {});
    CompletedAreProper(ds);
    CompletedAreDistinct(ds);
    forall c | c in cs
      ensures Has(ds, c.id)
    {
      var i :| 0 <= i < |ds| && ds[i] == c;
      HasAt(ds, i);
    }
  }

  lemma {:induction false} CompletedAreDistinct(ds: seq<Deployment>)
    requires Records(ds)
    ensures DistinctRecords(CompletedOf(ds))
  {
    HistoryDistinct(ds);
    CompletedAreProper(ds);
    hide CompletedOf;
    var cs := CompletedOf(ds);
    forall i, j | 0 <= i < j < |cs|
      ensures cs[i].id != cs[j].id
    {
      assert cs[i] in cs && cs[j] in cs && cs[i].release != cs[j].release;
    }
  }

  /** A whole deploy, from its start to the step that ends it. */
  ghost predicate WholeDeploy(s: State, id: Id, config: Config, events: seq<Event>, ok: bool) {
    var start := Apply(s, Deploy(id, config));
    Inv(s) && s.job.Idle? && Fresh(s.world, id) && Busy(start, events)
      && Apply(Run(start, events), Outcome(ok)).job.Idle?
  }

  /**
   A deploy that ends either left its release live and on disk, or nothing of itself and all that was live.
   Its record and the others' are Completed exactly as that says, but for those that cancellations overwrote.
   */
  lemma DeployIsAllOrNothing(s: State, id: Id, config: Config, events: seq<Event>, ok: bool)
    requires WholeDeploy(s, id, config, events, ok) && Restorable(s.world)
    ensures
      var start := Apply(s, Deploy(id, config));
      var end, gone := Apply(Run(start, events), Outcome(ok)).world, Demoted(start, events);
      if ReleaseDir(id) in end.directories then
        && end.current == Some(ReleaseDir(id))
        && exists own: Deployment :: own.id == id && History(end) == Standing(History(s.world) + [own], gone)
      else
        && NoOp(s.world, end)
        && History(end) == Standing(History(s.world), gone)
        && (UpstreamOwned(s.world, config) ==> end.upstream == s.world.upstream)
  {
    hide Inv, Fresh, DeployStep, PreviousNode, NoOp, CompletedOf, Standing, Accounted, UpstreamOwned, RecordWritten,
      Rank;
    var start := Apply(s, Deploy(id, config));
    var t, gone := Run(start, events), Demoted(start, events);
    var before, cs := History(s.world), Completions(start, events);
    StepKeepsInv(s, Deploy(id, config));
    HistoryIsAccounted(s);
    NewDeployAccounted(s, id, config, before, {});
    RunKeepsAccount(start, before, {}, events);
    assert {} + gone == gone;
    RunKeepsInv(start, events);
    BusyDeploy(start, events);
    BusyCompletions(start, events);
    EndIsAccounted(t, ok, before + cs, gone);
    if t.job.pc.Prune? {
      PruneEndsDeploy(t, ok);
      assert cs == [cs[0]];
    } else {
      FailedDeployIsNoOp(t, ok);
      FreshDirectory(s.world, id);
      assert DeployStep(t, ok).world.directories == s.world.directories
        by { NoOpDirectories(s.world, DeployStep(t, ok).world); }
      assert before + [] == before;
    }
  }

  lemma EndIsAccounted(t: State, ok: bool, cs: seq<Deployment>, gone: set<Id>)
    requires Inv(t) && t.job.Deploying? && Accounted(t, cs, gone) && DeployStep(t, ok).job.Idle?
    ensures History(DeployStep(t, ok).world) == Standing(cs, gone)
  {
    hide Inv, CompletedOf, Standing, DeployStep, RecordWritten;
    DeployStepAccounted(t, ok, cs, gone);
    assert cs + Completion(t, Outcome(ok)) == cs by {
      OwnRecordNow(t);
      hide OwnRecord;
      WhenWritten(t, ok);
      assert cs + [] == cs;
    }
  }

  lemma FreshDirectory(w: World, id: Id)
    requires Fresh(w, id)
    ensures ReleaseDir(id) !in w.directories
  {
  }

  lemma NoOpDirectories(before: World, after: World)
    requires NoOp(before, after)
    ensures after.directories == before.directories
  {
  }

  // ----- the status of the last write -----

  /** The status with which a deploy's last write leaves its record. */
  function LastStatus(s: State): Status
    requires s.job.Deploying?
  {
    match s.job.pc
    case Undo(_, phase, _) =>
      if phase == Cancellation then Cancelled else if Restorable(s.job.origin) then FailedRolledBack else Failed
    case Abort(_, _) =>
      if s.job.local.id in s.world.markers then Cancelled
      else if Activated(s.job.local) && Restorable(s.job.origin) then FailedRolledBack
      else Failed
    case _ => Completed
  }

  /** Whether the failure branch of a deploy restored the release that was live before. */
  predicate LastRolledBack(s: State)
    requires s.job.Deploying?
  {
    match s.job.pc
    case Undo(_, _, _) => Restorable(s.job.origin)
    case Abort(_, _) => Activated(s.job.local) && Restorable(s.job.origin)
    case _ => s.job.local.automaticRollback
  }

  /** The record that a deploy's last write stores: its own, but for what its failure branch adds. */
  function LastRecord(s: State): Deployment
    requires s.job.Deploying?
  {
    s.job.local.(status := LastStatus(s), automaticRollback := LastRolledBack(s),
      phases := if s.job.pc.Abort? then s.job.local.phases + [Phase(WholeDeployment, PhaseFailed)]
                else s.job.local.phases)
  }

  /** What a deploy's last write stores. */
  lemma OwnRecordAtEnd(s: State, ok: bool)
    requires Inv(s) && s.job.Deploying? && OwnWriteAhead(s.job, s.job.local.id)
    requires !OwnWriteAhead(DeployStep(s, ok).job, s.job.local.id)
    ensures var t, id := DeployStep(s, ok), s.job.local.id;
      var stored := Find(t.world.deployments, id);
      Final(t, id) && stored == Some(LastRecord(s))
  {
    hide Listed, PreviousNode, Progress, Activated, DeployStep;
    LastWriteStep(s, ok);
    hide Shaped, RecordWritten;
    OwnStep(s, ok);
    var n := |s.job.origin.deployments|;
    IndexAt(DeployStep(s, ok).world.deployments, n);
    HasAt(DeployStep(s, ok).world.deployments, n);
  }

  lemma LastWriteStep(s: State, ok: bool)
    requires Inv(s) && s.job.Deploying? && OwnWriteAhead(s.job, s.job.local.id)
    requires !OwnWriteAhead(DeployStep(s, ok).job, s.job.local.id)
    ensures RecordWritten(s, ok) == Some(LastRecord(s))
  {
    hide Listed, Activated, PreviousNode, Progress, DeployStep;
    assert OwnRecord(s.job);
    WhenWritten(s, ok);
    OwnLastStatus(s);
    if !s.job.pc.Drained? { LastFailureWrite(s, ok); }
  }

  lemma LastFailureWrite(s: State, ok: bool)
    requires s.job.Deploying? && (s.job.pc.Undo? || s.job.pc.Abort?) && RecordWritten(s, ok).Some?
    ensures (s.job.pc.Undo? && s.job.pc.undo.UndoRecord?) || (s.job.pc.Abort? && s.job.pc.abort.AbortRecord?)
  {
  }
}
