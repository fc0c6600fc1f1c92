/** A cancellation that reaches a check is honoured, however the writes of both sides interleave. */
module ReleaseCancellation {
  import opened Releases
  import opened ReleaseInvariant
  import opened ReleaseHistory
  import opened ReleaseProgress

  predicate StoredNotCompleted(w: World, id: Id) {
    Find(w.deployments, id).Some? && Find(w.deployments, id).value.status != Completed
  }

  /** Does the main line from this point pass another cancellation check before the deploy completes? */
  predicate CheckAhead(config: Config, pc: Pc)
    requires !pc.Undo? && !pc.Abort?
  {
    || Rank(pc) <= 17
    || pc.Guard?
    || (pc.Enter? && Commands(config, pc.stage) > 0)
    || (pc.Execute? && pc.left > 1)
  }

  /** The deploy is failing, or is marked and will pass a check; its record is not Completed. */
  predicate Caught(s: State, id: Id) {
    && StoredNotCompleted(s.world, id)
    && (s.job.Deploying? && s.job.local.id == id && !s.job.pc.Undo? && !s.job.pc.Abort? ==>
          id in s.world.markers && CheckAhead(s.job.config, s.job.pc))
  }

  lemma CheckStaysAhead(s: State, ok: bool)
    requires s.job.Deploying? && !s.job.pc.Undo? && !s.job.pc.Abort?
    requires s.job.local.id in s.world.markers && CheckAhead(s.job.config, s.job.pc)
    ensures var t := DeployStep(s, ok);
      t.job.Deploying? && t.world.markers == s.world.markers
      && (t.job.pc.Undo? || t.job.pc.Abort? || (!Done(t.job.pc) && CheckAhead(t.job.config, t.job.pc)))
  {
    if InStage(s.job.pc) {
      StageCheckStaysAhead(s, ok);
    } else {
      MainCheckStaysAhead(s, ok);
    }
  }

  lemma StageCheckStaysAhead(s: State, ok: bool)
    requires s.job.Deploying? && InStage(s.job.pc)
    requires s.job.local.id in s.world.markers && CheckAhead(s.job.config, s.job.pc)
    ensures var t := StageStep(s, ok);
      t.job.Deploying? && t.world.markers == s.world.markers
      && (t.job.pc.Undo? || t.job.pc.Abort? || (!Done(t.job.pc) && CheckAhead(t.job.config, t.job.pc)))
  {
    hide Upsert, FinishPhase;
  }

  lemma MainCheckStaysAhead(s: State, ok: bool)
    requires s.job.Deploying? && InMain(s.job.pc)
    requires s.job.local.id in s.world.markers && CheckAhead(s.job.config, s.job.pc)
    ensures var t := MainStep(s, ok);
      t.job.Deploying? && t.world.markers == s.world.markers
      && (t.job.pc.Undo? || t.job.pc.Abort? || (!Done(t.job.pc) && CheckAhead(t.job.config, t.job.pc)))
  {
    hide Upsert, Expired, ChoosePort;
  }

  lemma DeployStepKeepsCaught(s: State, id: Id, ok: bool)
    requires Inv(s) && s.job.Deploying? && Caught(s, id)
    ensures Caught(DeployStep(s, ok), id)
  {
    hide Listed, OwnRecord, Progress, Undoing, Aborting, DeployStep, RecordWritten, CheckAhead, Find, Upsert;
    DeployJob(s, ok);
    var d := RecordWritten(s, ok);
    DeployWrites(s, ok);
    if d.Some? {
      assert Records(s.world.deployments) by { ListedRecords(s); }
      FindAfterUpsert(s.world.deployments, d.value, id);
    }
    if s.job.local.id == id && !s.job.pc.Undo? && !s.job.pc.Abort? {
      CheckStaysAhead(s, ok);
    }
  }

  lemma ListedRecords(s: State)
    requires Inv(s)
    ensures Records(s.world.deployments)
  {
  }

  lemma StepKeepsCaught(s: State, id: Id, e: Event)
    requires Inv(s) && Caught(s, id)
    ensures Caught(Apply(s, e), id)
  {
    hide Shaped, DeployStep, RollbackStep, Upsert, Find, CheckAhead;
    match e
    case Deploy(i, config) =>
      if s.job.Idle? && Fresh(s.world, i) {
        FindAfterUpsert(s.world.deployments, NewRecord(s.world, i), id);
        assert i != id by { HasIfFound(s.world.deployments, id); }
      }
    case Rollback(_) =>
    case Outcome(ok) =>
      if s.job.Deploying? {
        DeployStepKeepsCaught(s, id, ok);
      } else if s.job.RollingBack? {
        RollbackWrites(s, ok);
        var r := RollbackRecord(s.job.target, s.job.record, s.job.before);
        FindAfterUpsert(s.world.deployments, r, id);
      }
    case CancelWrite(k) =>
      if k in s.requests && s.requests[k].marked {
        FindAfterUpsert(s.world.deployments, s.requests[k].snapshot.(status := Cancelling), id);
      }
    case _ =>
  }

  lemma {:induction false} RunKeepsCaught(s: State, id: Id, events: seq<Event>)
    requires Inv(s) && Caught(s, id)
    ensures Caught(Run(s, events), id)
    decreases |events|
  {
    hide Caught, Inv, Apply;
    if events != [] {
      var front := events[..|events| - 1];
      RunKeepsCaught(s, id, front);
      RunKeepsInv(s, front);
      StepKeepsCaught(Run(s, front), id, events[|events| - 1]);
    }
  }

  /**
   A deploy whose marker is on disk while a check is still ahead of it never becomes Completed,
   whatever happens afterwards; the deploy's own writes may overwrite the Cancelling status,
   and late writes of other cancellations are allowed.
   */
  lemma CancellationIsNeverLost(s: State, events: seq<Event>)
    requires Inv(s) && s.job.Deploying? && s.job.local.id in s.world.markers
    requires !s.job.pc.Undo? && !s.job.pc.Abort? && CheckAhead(s.job.config, s.job.pc)
    ensures StoredNotCompleted(Run(s, events).world, s.job.local.id)
  {
    hide Shaped, CheckAhead, Related;
    IndexAt(s.world.deployments, |s.job.origin.deployments|);
    assert !Done(s.job.pc) by { CheckBeforeDone(s.job.config, s.job.pc); }
    RunKeepsCaught(s, s.job.local.id, events);
  }

  lemma CheckBeforeDone(config: Config, pc: Pc)
    requires !pc.Undo? && !pc.Abort? && CheckAhead(config, pc)
    ensures !Done(pc)
  {
  }

  /**
   And only then: past the last check a marked deploy completes if its remaining calls succeed, unless it
   has written its record for the last time and a cancellation has overwritten that.
   */
  lemma {:induction false} MarkedTooLateCompletes(s: State) returns (n: nat)
    requires Inv(s) && s.job.Deploying?
    requires !s.job.pc.Undo? && !s.job.pc.Abort? && !CheckAhead(s.job.config, s.job.pc)
    requires s.job.pc.Prune? ==> LastCompleted(s.world)
    ensures var stored := Find(Run(s, Oks(n)).world.deployments, s.job.local.id);
      stored.Some? && stored.value.status == Completed
    decreases StepsLeft(s.job)
  {
    hide Shaped, Related, StepsLeft, DeployStep, CheckAhead;
    if s.job.pc.Prune? {
      n := 0;
      IndexAt(s.world.deployments, |s.job.origin.deployments|);
    } else {
      var t := Apply(s, Outcome(true));
      PastTheChecks(s);
      StepKeepsInv(s, Outcome(true));
      DeployStepEnds(s, true);
      DeployJob(s, true);
      StepsLeftOf(s, t);
      if s.job.pc.Drained? { LastWriteCompletes(s); }
      var m := MarkedTooLateCompletes(t);
      n := m + 1;
      assert Oks(n) == [Outcome(true)] + Oks(m);
      RunOne(s, Outcome(true), Oks(m));
    }
  }

  lemma StepsLeftOf(s: State, t: State)
    requires s.job.Deploying? && t.job.Deploying? && t.job.config == s.job.config
    requires Left(t.job.config, t.job.pc) < Left(s.job.config, s.job.pc)
    ensures StepsLeft(t.job) < StepsLeft(s.job)
  {
  }

  lemma PastTheChecks(s: State)
    requires s.job.Deploying? && !s.job.pc.Undo? && !s.job.pc.Abort? && !CheckAhead(s.job.config, s.job.pc)
    requires !s.job.pc.Prune?
    ensures var t := DeployStep(s, true);
      && t.job.Deploying? && !t.job.pc.Undo? && !t.job.pc.Abort? && !CheckAhead(t.job.config, t.job.pc)
      && (t.job.pc.Prune? ==> s.job.pc.Drained?)
  {
    hide Upsert, Expired, FinishPhase;
  }
}
