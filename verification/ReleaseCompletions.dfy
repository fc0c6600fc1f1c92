/**
 What the deployment list says about the past of a run.

 `cancel_deployment` reads a record, writes a marker and then writes the record back, as it was
 read, with status Cancelling.  A running deploy repairs its own record with its next write; after
 its last write nothing does.  `Completions` is what deploys completed, as they last wrote it, and
 `Demoted` the ids whose record a cancellation wrote after that.  The Completed records of the list
 are exactly the completions that were not demoted, in every state that any run reaches.
 */
module ReleaseCompletions {
  import opened Results
  import opened Releases
  import opened ReleaseInvariant
  import opened ReleaseHistory
  import opened ReleaseSafety

  // ----- what happened -----

  /** The record that this event writes back as Cancelling, if it does. */
  function Overwritten(s: State, e: Event): Option<Id> {
    if e.CancelWrite? && e.request in s.requests && s.requests[e.request].marked
    then Some(s.requests[e.request].snapshot.id)
    else None
  }

  /** The running deploy of `id` has yet to write its record for the last time. */
  predicate OwnWriteAhead(job: Job, id: Id) {
    job.Deploying? && job.local.id == id && !job.pc.Prune?
      && !(job.pc.Undo? && job.pc.undo in {UndoCurrent, UndoDirectory})
  }

  function Demotion(s: State, e: Event): set<Id> {
    var id := Overwritten(s, e);
    if id.Some? && !OwnWriteAhead(s.job, id.value) then {id.value} else {}
  }

  /** The ids whose record a cancellation of the run wrote after their deploy's last write. */
  function Demoted(s: State, events: seq<Event>): set<Id>
    decreases |events|
  {
    if events == [] then {}
    else
      var front := events[..|events| - 1];
      Demoted(s, front) + Demotion(Run(s, front), events[|events| - 1])
  }

  /** A deploy completes with the write that follows the draining. */
  function Completion(s: State, e: Event): seq<Deployment> {
    if e.Outcome? && s.job.Deploying? && s.job.pc.Drained? then [s.job.local] else []
  }

  /** The records of the deploys that completed in the run, oldest first, as they wrote them last. */
  function Completions(s: State, events: seq<Event>): seq<Deployment>
    decreases |events|
  {
    if events == [] then []
    else
      var front := events[..|events| - 1];
      Completions(s, front) + Completion(Run(s, front), events[|events| - 1])
  }

  // ----- what the list says about it -----

  /** The list without the record that its deploy has yet to write for the last time. */
  function Settled(s: State): seq<Deployment> {
    var ds := s.world.deployments;
    if s.job.Deploying? && OwnWriteAhead(s.job, s.job.local.id) && ds != [] then ds[..|ds| - 1] else ds
  }

  ghost predicate Final(s: State, id: Id) {
    Has(s.world.deployments, id) && !OwnWriteAhead(s.job, id)
  }

  ghost predicate Accounted(s: State, cs: seq<Deployment>, gone: set<Id>) {
    && CompletedOf(Settled(s)) == Standing(cs, gone)
    && (forall id :: id in gone ==> Final(s, id))
    && (forall c :: c in cs ==> Final(s, c.id) && c.status == Completed && Proper(c))
    && DistinctRecords(cs)
  }

  /** Every release on disk, but for that of a running deploy, is a completion's. */
  ghost predicate Housed(s: State, cs: seq<Deployment>) {
    match s.job
    case Idle => s.world.directories <= ReleasesOf(cs)
    case RollingBack(_, _, _, _, _, _) => s.world.directories <= ReleasesOf(cs)
    case Deploying(origin, _, d, _, pc) =>
      origin.directories <= ReleasesOf(cs) && (pc.Prune? ==> d.release in ReleasesOf(cs))
  }

  // ----- one step of a deploy -----

  /** When a step of a deploy writes its record, and whether that was the last time. */
  lemma WhenWritten(s: State, ok: bool)
    requires s.job.Deploying? && OwnRecord(s.job)
    ensures var t, d, id := DeployStep(s, ok), RecordWritten(s, ok), s.job.local.id;
      && (!OwnWriteAhead(s.job, id) ==> d.None? && !OwnWriteAhead(t.job, id))
      && (s.job.pc.Drained? ==>
            d == Some(s.job.local) && t.job.Deploying? && t.job.pc.Prune? && t.job.local == s.job.local)
      && (t.job.Deploying? && t.job.pc.Prune? ==> s.job.pc.Drained?)
      && (OwnWriteAhead(s.job, id) && !s.job.pc.Drained? && !OwnWriteAhead(t.job, id) ==>
            d.Some? && d.value.status != Completed && (s.job.pc.Undo? || s.job.pc.Abort?))
  {
    hide OwnRecord;
    if InStage(s.job.pc) {
      StageAhead(s, ok);
    } else if InMain(s.job.pc) {
      MainAhead(s, ok);
    } else {
      FailureAhead(s, ok);
    }
  }

  lemma StageAhead(s: State, ok: bool)
    requires s.job.Deploying? && InStage(s.job.pc)
    ensures var t := StageStep(s, ok); t.job.Deploying? && OwnWriteAhead(t.job, s.job.local.id) && !t.job.pc.Prune?
  {
    hide Upsert, FinishPhase;
  }

  lemma MainAhead(s: State, ok: bool)
    requires s.job.Deploying? && InMain(s.job.pc)
    ensures var t := MainStep(s, ok);
      && (s.job.pc.Prune? <==> t.job.Idle?) && (t.job.Idle? || t.job.Deploying?)
      && (s.job.pc.Drained? ==>
            RecordWritten(s, ok) == Some(s.job.local) && t.job.Deploying? && t.job.pc.Prune?
              && t.job.local == s.job.local)
      && (t.job.Deploying? && !s.job.pc.Drained? ==> OwnWriteAhead(t.job, s.job.local.id) && !t.job.pc.Prune?)
      && (s.job.pc.Prune? ==> RecordWritten(s, ok).None?)
  {
    hide Upsert, Expired;
  }

  lemma FailureAhead(s: State, ok: bool)
    requires s.job.Deploying? && (s.job.pc.Undo? || s.job.pc.Abort?)
    ensures var t, d, id := DeployStep(s, ok), RecordWritten(s, ok), s.job.local.id;
      && (t.job.Idle? || (t.job.Deploying? && !t.job.pc.Prune?))
      && (!OwnWriteAhead(s.job, id) ==> d.None? && !OwnWriteAhead(t.job, id))
      && (OwnWriteAhead(s.job, id) && !OwnWriteAhead(t.job, id) ==> d.Some? && d.value.status != Completed)
  {
    hide Upsert, Activated, MainStep, StageStep;
  }

  /** A step of a deploy touches its own place of the list only. */
  lemma OwnStep(s: State, ok: bool)
    requires Inv(s) && s.job.Deploying?
    ensures var ds, es, n := s.world.deployments, DeployStep(s, ok).world.deployments, |s.job.origin.deployments|;
      && |ds| == n + 1 && |es| == n + 1 && es[..n] == ds[..n] && ds[n].id == s.job.local.id
      && es[n] == (if RecordWritten(s, ok).Some? then RecordWritten(s, ok).value else ds[n])
      && es[n].id == ds[n].id && Records(es)
      && forall id :: Has(es, id) <==> Has(ds, id)
  {
    hide Progress, Undoing, Aborting, Related, RecordWritten, DeployStep;
    DeployWrites(s, ok);
    var d := RecordWritten(s, ok);
    if d.Some? {
      OwnRecordWritten(s.job.origin.deployments, s.world.deployments, s.job.local, Done(s.job.pc), d.value);
    }
  }

  lemma StepStays(s: State, ok: bool)
    requires s.job.Deploying?
    ensures var t := DeployStep(s, ok);
      t.job.Idle? || (t.job.Deploying? && t.job.local.id == s.job.local.id && t.job.origin == s.job.origin)
  {
    hide DeployStep;
    DeployJob(s, ok);
  }

  lemma DeployStepHistory(s: State, ok: bool, cs: seq<Deployment>, gone: set<Id>)
    requires Inv(s) && s.job.Deploying? && CompletedOf(Settled(s)) == Standing(cs, gone)
    requires s.job.pc.Drained? ==> s.job.local.id !in gone
    ensures CompletedOf(Settled(DeployStep(s, ok))) == Standing(cs + Completion(s, Outcome(ok)), gone)
  {
    hide Listed, Progress, Undoing, Aborting, Activated, RecordWritten, DeployStep, CompletedOf, Standing, Done,
      Records, Has;
    assert OwnRecord(s.job);
    WhenWritten(s, ok);
    StepStays(s, ok);
    OwnStep(s, ok);
    OwnLastStatus(s);
    hide OwnRecord, Inv;
    var t, own := DeployStep(s, ok), s.job.local;
    var ds, es, n := s.world.deployments, t.world.deployments, |s.job.origin.deployments|;
    if s.job.pc.Drained? {
      HistoryOfLast(es);
      assert Settled(t) == es && es[..|es| - 1] == Settled(s);
      assert es[|es| - 1] == own && own.status == Completed;
      StandingSnoc(cs, own, gone);
    } else {
      assert cs + Completion(s, Outcome(ok)) == cs;
      if !OwnWriteAhead(s.job, own.id) {
        assert es == ds;
      } else if !OwnWriteAhead(t.job, own.id) {
        HistoryOfLast(es);
        assert Settled(t) == es && es[..|es| - 1] == Settled(s) && es[|es| - 1].status != Completed;
      } else {
        assert Settled(t) == Settled(s);
      }
    }
  }

  lemma DeployStepFinal(s: State, ok: bool, id: Id)
    requires Inv(s) && s.job.Deploying? && (Final(s, id) || (s.job.pc.Drained? && id == s.job.local.id))
    ensures Final(DeployStep(s, ok), id)
  {
    hide Listed, Progress, Undoing, Aborting, Activated, RecordWritten, DeployStep;
    WhenWritten(s, ok);
    StepStays(s, ok);
    OwnStep(s, ok);
    var ds, n := s.world.deployments, |s.job.origin.deployments|;
    if id == s.job.local.id { HasAt(ds, n); }
  }

  lemma HasAt(ds: seq<Deployment>, k: nat)
    requires k < |ds|
    ensures Has(ds, ds[k].id)
  {
    var i := IndexOf(ds, ds[k].id);
    if i > k { assert false; }
  }

  lemma DeployStepAccounted(s: State, ok: bool, cs: seq<Deployment>, gone: set<Id>)
    requires Inv(s) && Accounted(s, cs, gone) && s.job.Deploying?
    ensures Accounted(DeployStep(s, ok), cs + Completion(s, Outcome(ok)), gone)
  {
    hide Inv, DeployStep, CompletedOf, Standing, Final, Settled;
    var more := cs + Completion(s, Outcome(ok));
    if s.job.pc.Drained? { assert !Final(s, s.job.local.id) by { UnfinalOwn(s); } }
    DeployStepHistory(s, ok, cs, gone);
    forall id | Final(s, id) || (s.job.pc.Drained? && id == s.job.local.id)
      ensures Final(DeployStep(s, ok), id)
    {
      DeployStepFinal(s, ok, id);
    }
    if s.job.pc.Drained? {
      OwnIsProper(s);
      OwnLastStatus(s);
      DistinctSnoc(cs, s.job.local);
    } else {
      assert more == cs;
    }
  }

  lemma UnfinalOwn(s: State)
    requires s.job.Deploying? && s.job.pc.Drained?
    ensures !Final(s, s.job.local.id)
  {
  }

  lemma DistinctSnoc(cs: seq<Deployment>, d: Deployment)
    requires DistinctRecords(cs) && forall c :: c in cs ==> c.id != d.id
    ensures DistinctRecords(cs + [d])
  {
  }

  /** What the record of a failing deploy can be once it was written for the last time. */
  lemma OwnLastStatus(s: State)
    requires Inv(s) && s.job.Deploying?
    ensures var ds := s.world.deployments; ds != [] && (ds[|ds| - 1].status == Completed ==> Done(s.job.pc))
    ensures s.job.pc.Drained? ==> s.job.local.status == Completed
  {
    hide Progress, Undoing, Aborting, Related;
  }

  lemma OwnIsProper(s: State)
    requires Inv(s) && s.job.Deploying?
    ensures Proper(s.job.local)
  {
    hide Progress, Undoing, Aborting, Related;
  }

  // ----- the other steps -----

  lemma CancelWriteHistory(s: State, k: nat, cs: seq<Deployment>, gone: set<Id>)
    requires Inv(s) && k in s.requests && s.requests[k].marked
    requires CompletedOf(Settled(s)) == Standing(cs, gone)
    ensures CompletedOf(Settled(CancelStep(s, CancelWrite(k)))) == Standing(cs, gone + Demotion(s, CancelWrite(k)))
  {
    hide Shaped, Related, CompletedOf, Standing, Has;
    var ds, r := s.world.deployments, s.requests[k].snapshot.(status := Cancelling);
    var t, at := CancelStep(s, CancelWrite(k)), IndexOf(ds, r.id);
    assert Has(ds, r.id);
    UpsertInPlace(ds, r);
    assert at < |ds| by { HasIfFound(ds, r.id); }
    if s.job.Deploying? { IndexAt(ds, |ds| - 1); }
    if OwnWriteAhead(s.job, r.id) {
      assert Settled(t) == Settled(s);
      assert gone + {} == gone;
    } else {
      assert DistinctRecords(Settled(s));
      assert Overwrites(Settled(s), at, r, Settled(t));
      hide Inv, Listed, Settled, CancelStep;
      HistoryOfDemotion(Settled(s), at, r, Settled(t));
      StandingTwice(cs, gone, {r.id});
    }
  }

  lemma CancelWriteFinal(s: State, k: nat, id: Id)
    requires Inv(s) && k in s.requests && s.requests[k].marked
    requires Final(s, id) || id in Demotion(s, CancelWrite(k))
    ensures Final(CancelStep(s, CancelWrite(k)), id)
  {
    hide Shaped, Related, Upsert, Has;
    UpsertInPlace(s.world.deployments, s.requests[k].snapshot.(status := Cancelling));
  }

  lemma CancelWriteAccounted(s: State, k: nat, cs: seq<Deployment>, gone: set<Id>)
    requires Inv(s) && Accounted(s, cs, gone) && k in s.requests && s.requests[k].marked
    ensures Accounted(CancelStep(s, CancelWrite(k)), cs, gone + Demotion(s, CancelWrite(k)))
  {
    hide Inv, CompletedOf, Standing, Settled, Final, CancelStep, Demotion;
    CancelWriteHistory(s, k, cs, gone);
    forall id | Final(s, id) || id in Demotion(s, CancelWrite(k))
      ensures Final(CancelStep(s, CancelWrite(k)), id)
    {
      CancelWriteFinal(s, k, id);
    }
  }

  lemma NewDeployAccounted(s: State, id: Id, config: Config, cs: seq<Deployment>, gone: set<Id>)
    requires Inv(s) && Accounted(s, cs, gone) && s.job.Idle? && Fresh(s.world, id)
    ensures Accounted(Apply(s, Deploy(id, config)), cs, gone)
  {
    hide Shaped, CompletedOf, Standing, PreviousNode;
    var ds := s.world.deployments;
    UpsertNew(ds, NewRecord(s.world, id));
    assert (ds + [NewRecord(s.world, id)])[..|ds|] == ds;
  }

  lemma RollbackStepAccounted(s: State, ok: bool, cs: seq<Deployment>, gone: set<Id>)
    requires Inv(s) && Accounted(s, cs, gone) && s.job.RollingBack?
    ensures Accounted(RollbackStep(s, ok), cs, gone)
  {
    hide RollbackStep, RollingForward, CompletedOf, Standing, Related;
    RollbackWrites(s, ok);
    if s.job.rpc.WriteRollback? {
      var r := RollbackRecord(s.job.target, s.job.record, s.job.before);
      UpsertNew(s.world.deployments, r);
      HistoryOfSnoc(s.world.deployments, r);
    }
  }

  lemma StepAccounted(s: State, e: Event, cs: seq<Deployment>, gone: set<Id>)
    requires Inv(s) && Accounted(s, cs, gone)
    ensures Accounted(Apply(s, e), cs + Completion(s, e), gone + Demotion(s, e))
  {
    hide Inv, Accounted, DeployStep, RollbackStep, CancelStep, Fresh;
    assert cs + [] == cs && gone + {} == gone;
    match e
    case Deploy(id, config) =>
      if s.job.Idle? && Fresh(s.world, id) { NewDeployAccounted(s, id, config, cs, gone); }
    case Rollback(_) => RollbackStartAccounted(s, e, cs, gone);
    case Outcome(ok) =>
      if s.job.Deploying? {
        DeployStepAccounted(s, ok, cs, gone);
      } else if s.job.RollingBack? {
        RollbackStepAccounted(s, ok, cs, gone);
      }
    case CancelWrite(k) =>
      if k in s.requests && s.requests[k].marked {
        CancelWriteAccounted(s, k, cs, gone);
      } else {
        QuietCancel(s, e);
        SameListAccounted(s, CancelStep(s, e), cs, gone);
      }
    case _ =>
      QuietCancel(s, e);
      SameListAccounted(s, CancelStep(s, e), cs, gone);
  }

  lemma QuietCancel(s: State, e: Event)
    requires e.CancelRead? || e.CancelMark? || e.CancelWrite?
    requires Overwritten(s, e).None?
    ensures CancelStep(s, e).job == s.job && CancelStep(s, e).world.deployments == s.world.deployments
    ensures CancelStep(s, e).world.directories == s.world.directories
  {
  }

  lemma SameListAccounted(s: State, t: State, cs: seq<Deployment>, gone: set<Id>)
    requires Accounted(s, cs, gone) && t.job == s.job && t.world.deployments == s.world.deployments
    ensures Accounted(t, cs, gone)
  {
  }

  lemma RollbackStartAccounted(s: State, e: Event, cs: seq<Deployment>, gone: set<Id>)
    requires Accounted(s, cs, gone) && e.Rollback?
    ensures Accounted(Apply(s, e), cs, gone)
  {
    hide RollbackTarget, ActiveNode, CompletedOf, Standing;
  }

  /** Started from any state whose list is accounted for, every run keeps account. */
  lemma {:induction false} RunKeepsAccount(s: State, cs: seq<Deployment>, gone: set<Id>, events: seq<Event>)
    requires Inv(s) && Accounted(s, cs, gone)
    ensures Accounted(Run(s, events), cs + Completions(s, events), gone + Demoted(s, events))
    decreases |events|
  {
    hide Inv, Accounted, Apply, Completion, Demotion;
    if events == [] {
      assert cs + [] == cs && gone + {} == gone;
    } else {
      var front, e := events[..|events| - 1], events[|events| - 1];
      var u := Run(s, front);
      RunKeepsAccount(s, cs, gone, front);
      RunKeepsInv(s, front);
      StepAccounted(u, e, cs + Completions(s, front), gone + Demoted(s, front));
      assert cs + Completions(s, front) + Completion(u, e) == cs + (Completions(s, front) + Completion(u, e));
      assert gone + Demoted(s, front) + Demotion(u, e) == gone + (Demoted(s, front) + Demotion(u, e));
    }
  }

  // ----- directories -----

  lemma ReleasesGrow(cs: seq<Deployment>, more: seq<Deployment>)
    ensures ReleasesOf(cs) <= ReleasesOf(cs + more)
  {
  }

  lemma StepHoused(s: State, e: Event, cs: seq<Deployment>)
    requires Inv(s) && Housed(s, cs)
    ensures Housed(Apply(s, e), cs + Completion(s, e))
  {
    hide Inv, DeployStep, RollbackStep, CancelStep, ReleasesOf;
    ReleasesGrow(cs, Completion(s, e));
    match e
    case Deploy(_, _) =>
    case Rollback(_) =>
    case Outcome(ok) =>
      if s.job.Deploying? {
        DeployStepHoused(s, ok, cs);
      } else if s.job.RollingBack? {
        RollbackWrites(s, ok);
        RollbackKeepsDirectories(s, ok);
      }
    case _ => CancelEffect(s, e);
  }

  lemma RollbackKeepsDirectories(s: State, ok: bool)
    requires s.job.RollingBack?
    ensures RollbackStep(s, ok).world.directories == s.world.directories
  {
    hide Upsert;
  }

  lemma DeployStepHoused(s: State, ok: bool, cs: seq<Deployment>)
    requires Inv(s) && Housed(s, cs) && s.job.Deploying?
    ensures Housed(DeployStep(s, ok), cs + Completion(s, Outcome(ok)))
  {
    hide Listed, OwnRecord, Progress, Undoing, Aborting, DeployStep, Expired, RecordWritten;
    ReleasesGrow(cs, Completion(s, Outcome(ok)));
    DeployJob(s, ok);
    assert Shaped(s) && OwnRecord(s.job);
    WhenWritten(s, ok);
    if DeployStep(s, ok).job.Idle? {
      if s.job.pc.Prune? { PruneEndsDeploy(s, ok); } else { FailureEnds(s, ok); }
    }
    if s.job.pc.Drained? { assert s.job.local in cs + [s.job.local]; }
  }

  lemma {:induction false} RunKeepsHoused(s: State, cs: seq<Deployment>, events: seq<Event>)
    requires Inv(s) && Housed(s, cs)
    ensures Housed(Run(s, events), cs + Completions(s, events))
    decreases |events|
  {
    hide Inv, Housed, Apply, Completion;
    if events == [] {
      assert cs + [] == cs;
    } else {
      var front, e := events[..|events| - 1], events[|events| - 1];
      RunKeepsHoused(s, cs, front);
      RunKeepsInv(s, front);
      StepHoused(Run(s, front), e, cs + Completions(s, front));
      assert cs + Completions(s, front) + Completion(Run(s, front), e) == cs
        + (Completions(s, front) + Completion(Run(s, front), e));
    }
  }

  // ----- every run -----

  lemma EmptyIsAccounted()
    ensures Inv(EMPTY) && Accounted(EMPTY, [], {}) && Housed(EMPTY, []) && LinkedState(EMPTY)
  {
  }

  /**
   Between the operations of any run, the Completed records are exactly the completions of the run that
   were not demoted, in order; and every release on disk is a completion's.
   */
  lemma HistoryOfRuns(events: seq<Event>)
    ensures var s, cs, gone := Run(EMPTY, events), Completions(EMPTY, events), Demoted(EMPTY, events);
      && Accounted(s, cs, gone) && Housed(s, cs)
      && (s.job.Idle? ==> History(s.world) == Standing(cs, gone) && s.world.directories <= ReleasesOf(cs))
  {
    hide Inv, Accounted, Standing, CompletedOf;
    EmptyIsAccounted();
    RunKeepsAccount(EMPTY, [], {}, events);
    RunKeepsHoused(EMPTY, [], events);
    assert [] + Completions(EMPTY, events) == Completions(EMPTY, events);
    assert {} + Demoted(EMPTY, events) == Demoted(EMPTY, events);
    assert Run(EMPTY, events).job.Idle? ==> Settled(Run(EMPTY, events)) == Run(EMPTY, events).world.deployments;
    AccountedHistory(Run(EMPTY, events), Completions(EMPTY, events), Demoted(EMPTY, events));
  }

  lemma AccountedHistory(s: State, cs: seq<Deployment>, gone: set<Id>)
    requires Accounted(s, cs, gone)
    ensures CompletedOf(Settled(s)) == Standing(cs, gone)
  {
  }

  // ----- one record -----

  /** A record changes only by its deploy's own writes and by cancellations. */
  lemma StepKeepsRecord(s: State, e: Event, id: Id)
    requires Inv(s) && Final(s, id) && id !in Demotion(s, e)
    ensures Final(Apply(s, e), id) && Find(Apply(s, e).world.deployments, id) == Find(s.world.deployments, id)
  {
    hide Shaped, Related, DeployStep, RollbackStep, Upsert, Find;
    var ds := s.world.deployments;
    HasIfFound(ds, id);
    HasIfFound(Apply(s, e).world.deployments, id);
    match e
    case Deploy(i, config) =>
      if s.job.Idle? && Fresh(s.world, i) { FindAfterUpsert(ds, NewRecord(s.world, i), id); }
    case Rollback(_) =>
    case Outcome(ok) =>
      if s.job.Deploying? {
        DeployStepKeepsRecord(s, ok, id);
      } else if s.job.RollingBack? {
        RollbackWrites(s, ok);
        FindAfterUpsert(ds, RollbackRecord(s.job.target, s.job.record, s.job.before), id);
      }
    case CancelWrite(k) =>
      if k in s.requests && s.requests[k].marked {
        FindAfterUpsert(ds, s.requests[k].snapshot.(status := Cancelling), id);
      }
    case _ =>
  }

  lemma DeployStepKeepsRecord(s: State, ok: bool, id: Id)
    requires Inv(s) && s.job.Deploying? && Final(s, id)
    ensures Final(DeployStep(s, ok), id)
    ensures Find(DeployStep(s, ok).world.deployments, id) == Find(s.world.deployments, id)
  {
    hide Listed, Progress, Undoing, Aborting, RecordWritten, DeployStep;
    WhenWritten(s, ok);
    StepStays(s, ok);
    OwnStep(s, ok);
    var ds, es := s.world.deployments, DeployStep(s, ok).world.deployments;
    var i := IndexOf(ds, id);
    if i < |s.job.origin.deployments| { assert es[..|ds| - 1][i] == ds[..|ds| - 1][i]; }
    assert es[i] == ds[i];
    IndexAt(es, i);
  }

  /** Once its deploy has written it for the last time, a record stays as it is until a cancellation overwrites it. */
  lemma {:induction false} RecordIsKept(s: State, events: seq<Event>, id: Id)
    requires Inv(s) && Final(s, id) && id !in Demoted(s, events)
    ensures Final(Run(s, events), id)
    ensures Find(Run(s, events).world.deployments, id) == Find(s.world.deployments, id)
    decreases |events|
  {
    hide Inv, Final, Apply, Find, Demotion;
    if events != [] {
      var front := events[..|events| - 1];
      RecordIsKept(s, front, id);
      RunKeepsInv(s, front);
      StepKeepsRecord(Run(s, front), events[|events| - 1], id);
    }
  }
}
