/** Zero-downtime handoff: nginx points at a started unit at every step of every operation. */
module ReleaseServing {
  import opened Results
  import opened Releases
  import opened ReleaseInvariant
  import opened ReleaseHistory
  import opened ReleaseSafety
  import opened ReleaseCompletions
  import opened ReleaseProgress
  import opened ReleaseOutcomes

  /** nginx proxies to the port of some started unit. */
  ghost predicate UpstreamServed(w: World) {
    w.upstream.Some? && exists u :: u in w.running && w.running[u] == w.upstream.value
  }

  /** The live release exists, its unit is started, and nginx proxies to that unit's port. */
  predicate LiveServed(w: World) {
    && w.current.Some? && w.current.value in w.directories
    && var u := WebUnit(w.current.value.id);
    && u in w.running && w.upstream == Some(w.running[u])
  }

  /** The unit recorded for `r` is started on the port recorded for it, and nginx proxies there. */
  predicate ServedBy(w: World, r: Deployment) {
    && r.unit.Some? && r.port.Some?
    && r.unit.value in w.running && w.running[r.unit.value] == r.port.value
    && w.upstream == r.port
  }

  predicate AllNode(w: World) {
    forall i :: 0 <= i < |w.deployments| && w.deployments[i].status == Completed ==> w.deployments[i].unit.Some?
  }

  // ----- units run on the ports recorded for them -----

  predicate OnRecordedPort(r: Deployment, running: map<Unit, Port>) {
    r.status == Completed && r.unit.Some? && r.unit.value in running ==> r.port == Some(running[r.unit.value])
  }

  predicate Matched(w: World) {
    forall i :: 0 <= i < |w.deployments| ==> OnRecordedPort(w.deployments[i], w.running)
  }

  ghost predicate MatchedState(s: State) {
    match s.job
    case Idle => Matched(s.world)
    case RollingBack(origin, _, _, _, _, _) => Matched(origin)
    case Deploying(origin, _, _, _, _) => Matched(origin)
  }

  /** Fewer Completed records match the same units. */
  lemma DemotionKeepsMatched(before: World, after: World)
    requires Matched(before) && after.running == before.running
    requires |before.deployments| <= |after.deployments|
    requires Related(before.deployments, after.deployments[..|before.deployments|])
    requires forall i :: |before.deployments| <= i < |after.deployments| ==> after.deployments[i].status != Completed
    ensures Matched(after)
    ensures AllNode(before) ==> AllNode(after)
  {
    forall i | 0 <= i < |after.deployments|
      ensures OnRecordedPort(after.deployments[i], after.running)
    {
      if i < |before.deployments| {
        assert after.deployments[..|before.deployments|][i] == after.deployments[i];
        assert OnRecordedPort(before.deployments[i], before.running);
      }
    }
    forall i | 0 <= i < |after.deployments| && after.deployments[i].status == Completed && AllNode(before)
      ensures after.deployments[i].unit.Some?
    {
      assert after.deployments[..|before.deployments|][i] == after.deployments[i];
    }
  }

  lemma FailedDeployKeepsMatched(s: State, ok: bool)
    requires Inv(s) && s.job.Deploying? && !s.job.pc.Prune? && DeployStep(s, ok).job.Idle? && Matched(s.job.origin)
    ensures Matched(DeployStep(s, ok).world)
    ensures AllNode(s.job.origin) ==> AllNode(DeployStep(s, ok).world)
  {
    hide Progress, Undoing, Aborting, DeployStep, RecordWritten, Related, Matched, AllNode;
    DeployJob(s, ok);
    FailureEnds(s, ok);
    DeployWrites(s, ok);
    OwnStep(s, ok);
    OwnLastStatus(s);
    DemotionKeepsMatched(s.job.origin, DeployStep(s, ok).world);
  }

  /** What a completed deploy has made of the records and the units. */
  lemma PruneUnits(s: State)
    requires Inv(s) && s.job.Deploying? && s.job.pc.Prune?
    ensures var origin, w, d, n := s.job.origin, s.world, s.job.local, |s.job.origin.deployments|;
      && |w.deployments| == n + 1 && Related(origin.deployments, w.deployments[..n]) && Records(w.deployments)
      && w.deployments[n].id == d.id
      && (w.deployments[n].status == Completed ==> w.deployments[n].unit == d.unit && w.deployments[n].port == d.port)
      && (d.unit.Some? <==> s.job.config.handoff.Some?)
      && (d.unit.Some? ==> d.unit == Some(WebUnit(d.id)) && d.port.Some?)
      && (forall u :: u in w.running && d.unit != Some(u) ==> u in origin.running && w.running[u] == origin.running[u])
      && (d.unit.Some? ==> w.upstream == d.port && d.unit.value in w.running && w.running[d.unit.value] == d.port.value)
      && s.job.node == PreviousNode(origin)
  {
    hide PreviousNode, Expired, Related;
    if s.job.node.Some? { LiveUnit(s.job.origin, s.job.local.id); }
  }

  /** The unit of the release that was live is not that of a fresh deploy. */
  lemma LiveUnit(origin: World, id: Id)
    requires Records(origin.deployments) && Fresh(origin, id) && PreviousNode(origin).Some?
    ensures PreviousNode(origin).value.unit != Some(WebUnit(id))
  {
    LiveRecord(origin);
    var r := PreviousNode(origin).value;
    var i :| 0 <= i < |origin.deployments| && origin.deployments[i] == r;
    IndexAt(origin.deployments, i);
  }

  lemma LiveRecord(w: World)
    requires Records(w.deployments) && PreviousNode(w).Some?
    ensures var r := PreviousNode(w).value;
      && r in w.deployments && r.status == Completed
      && w.current == Some(r.release) && r.unit == Some(WebUnit(r.id)) && r.port.Some?
      && r.release == ReleaseDir(r.id)
      && ActiveNode(w) == Some(r)
  {
    var r := PreviousNode(w).value;
    var i :| 0 <= i < |w.deployments| && w.deployments[i] == r;
    assert Proper(w.deployments[i]);
    LiveNodeIs(w, r);
  }

  lemma TargetRecord(w: World)
    requires Records(w.deployments) && RollbackTarget(w).Some?
    ensures var r := RollbackTarget(w).value;
      && r in w.deployments && r.status == Completed && w.current != Some(r.release) && r.release in w.directories
      && r.release == ReleaseDir(r.id)
      && (r.unit.Some? <==> r.port.Some?) && (r.unit.Some? ==> r.unit == Some(WebUnit(r.id)))
  {
    var r := RollbackTarget(w).value;
    var i :| 0 <= i < |w.deployments| && w.deployments[i] == r;
    assert Proper(w.deployments[i]);
  }

  lemma PruneKeepsMatched(s: State)
    requires Inv(s) && s.job.Deploying? && s.job.pc.Prune? && Matched(s.job.origin)
    ensures Matched(s.world)
    ensures AllNode(s.job.origin) && s.job.config.handoff.Some? ==> AllNode(s.world)
  {
    hide Inv, Related;
    PruneUnits(s);
    var origin, w, n := s.job.origin, s.world, |s.job.origin.deployments|;
    forall i | 0 <= i < |w.deployments|
      ensures OnRecordedPort(w.deployments[i], w.running)
      ensures AllNode(origin) && s.job.config.handoff.Some? && w.deployments[i].status == Completed ==>
        w.deployments[i].unit.Some?
    {
      if i < n { EarlierKeepsPort(s, i); }
    }
  }

  /** A Completed record from before the deploy is as it was, and so is its unit if it still runs. */
  lemma EarlierKeepsPort(s: State, i: nat)
    requires Inv(s) && s.job.Deploying? && s.job.pc.Prune? && Matched(s.job.origin) && i < |s.job.origin.deployments|
    ensures i < |s.world.deployments| && OnRecordedPort(s.world.deployments[i], s.world.running)
    ensures AllNode(s.job.origin) && s.world.deployments[i].status == Completed ==> s.world.deployments[i].unit.Some?
  {
    hide Inv;
    PruneUnits(s);
    var origin, w, n := s.job.origin, s.world, |s.job.origin.deployments|;
    assert w.deployments[..n][i] == w.deployments[i];
    assert OnRecordedPort(origin.deployments[i], origin.running);
    assert Proper(w.deployments[i]) && w.deployments[i].id != w.deployments[n].id;
  }

  /** The units at the end of a rollback: those at the start, and perhaps the target's on its recorded port. */
  lemma RollbackUnits(s: State, ok: bool)
    requires Inv(s) && s.job.RollingBack? && RollbackStep(s, ok).job.Idle?
    ensures var w, origin, target := RollbackStep(s, ok).world, s.job.origin, s.job.target;
      forall u :: u in w.running ==>
        || (IsNode(target) && target.unit == Some(u) && w.running[u] == target.port.value)
        || (u in origin.running && w.running[u] == origin.running[u])
  {
    hide RollbackTarget, ActiveNode, Upsert, Listed;
  }

  lemma RollbackKeepsMatched(s: State, ok: bool)
    requires Inv(s) && s.job.RollingBack? && RollbackStep(s, ok).job.Idle? && Matched(s.job.origin)
    ensures Matched(RollbackStep(s, ok).world)
    ensures AllNode(s.job.origin) ==> AllNode(RollbackStep(s, ok).world)
  {
    hide RollbackStep;
    RollbackUnits(s, ok);
    RollbackWrites(s, ok);
    RollbackParts(s);
    hide Inv, RollbackTarget;
    var before, ds, w, target := s.job.origin.deployments, s.world.deployments, RollbackStep(s, ok).world, s.job.target;
    if s.job.rpc.WriteRollback? { UpsertNew(ds, RollbackRecord(target, s.job.record, s.job.before)); }
    forall i | 0 <= i < |w.deployments| && w.deployments[i].status == Completed
      ensures i < |before| && w.deployments[i] == before[i]
    {
      assert i < |ds| ==> w.deployments[i] == ds[i];
    }
    forall i | 0 <= i < |w.deployments|
      ensures OnRecordedPort(w.deployments[i], w.running)
    {
      if w.deployments[i].status == Completed {
        assert OnRecordedPort(before[i], s.job.origin.running);
        if before[i].unit.Some? && before[i].unit == target.unit { SameUnit(before, i, target); }
      }
    }
  }

  lemma SameUnit(ds: seq<Deployment>, i: nat, r: Deployment)
    requires Records(ds) && i < |ds| && r in ds && r.status == Completed && ds[i].status == Completed
    requires ds[i].unit.Some? && ds[i].unit == r.unit
    ensures ds[i] == r
  {
    var j :| 0 <= j < |ds| && ds[j] == r;
    assert Proper(ds[i]) && Proper(ds[j]);
  }

  lemma RollbackParts(s: State)
    requires Inv(s) && s.job.RollingBack?
    ensures var origin := s.job.origin;
      && Records(origin.deployments) && Records(s.world.deployments) && Related(origin.deployments, s.world.deployments)
      && !Has(s.world.deployments, s.job.record)
      && RollbackTarget(origin) == Some(s.job.target) && s.job.live == ActiveNode(origin)
      && s.job.target in origin.deployments && s.job.target.status == Completed
  {
    hide Newest, ActiveNode;
    TargetRecord(s.job.origin);
  }

  lemma StepKeepsMatched(s: State, e: Event)
    requires Inv(s) && MatchedState(s)
    ensures MatchedState(Apply(s, e))
  {
    hide Inv, Matched, DeployStep, RollbackStep, CancelStep, Fresh, RollbackTarget, AllNode;
    match e
    case Deploy(_, _) =>
    case Rollback(_) =>
    case Outcome(ok) =>
      if s.job.Deploying? {
        DeployJob(s, ok);
        if DeployStep(s, ok).job.Idle? { DeployEndsMatched(s, ok); }
      } else if s.job.RollingBack? {
        RollbackWrites(s, ok);
        if RollbackStep(s, ok).job.Idle? { RollbackKeepsMatched(s, ok); }
      }
    case _ =>
      CancelEffect(s, e);
      if s.job.Idle? { CancelKeepsMatched(s, e); }
  }

  lemma DeployEndsMatched(s: State, ok: bool)
    requires Inv(s) && s.job.Deploying? && DeployStep(s, ok).job.Idle? && Matched(s.job.origin)
    ensures Matched(DeployStep(s, ok).world)
    ensures AllNode(s.job.origin) && s.job.config.handoff.Some? ==> AllNode(DeployStep(s, ok).world)
  {
    hide Inv, DeployStep, Expired;
    if s.job.pc.Prune? {
      PruneKeepsMatched(s);
      PruneEndsDeploy(s, ok);
    } else {
      FailedDeployKeepsMatched(s, ok);
    }
  }

  lemma CancelKeepsMatched(s: State, e: Event)
    requires Inv(s) && (e.CancelRead? || e.CancelMark? || e.CancelWrite?) && Matched(s.world)
    ensures Matched(CancelStep(s, e).world)
    ensures AllNode(s.world) ==> AllNode(CancelStep(s, e).world)
  {
    hide Shaped, Related, Matched, AllNode;
    CancelEffect(s, e);
    var w, v := s.world, CancelStep(s, e).world;
    if Overwritten(s, e).Some? {
      var r := s.requests[e.request].snapshot.(status := Cancelling);
      UpsertInPlace(w.deployments, r);
      assert Related(w.deployments, v.deployments[..|w.deployments|]) by {
        assert v.deployments[..|w.deployments|] == v.deployments;
        OverwriteIsRelated(w.deployments, r);
      }
      DemotionKeepsMatched(w, v);
    } else {
      QuietCancel(s, e);
      SameUnits(w, v);
    }
  }

  lemma SameUnits(w: World, v: World)
    requires v.deployments == w.deployments && v.running == w.running
    ensures Matched(w) <==> Matched(v)
    ensures AllNode(w) <==> AllNode(v)
  {
  }

  lemma OverwriteIsRelated(ds: seq<Deployment>, r: Deployment)
    requires Records(ds) && Has(ds, r.id) && Proper(r) && r.status == Cancelling
    ensures Related(ds, Upsert(ds, r))
  {
    UpsertInPlace(ds, r);
  }

  /** In every reachable state, no run excepted, started units of Completed releases use the ports recorded for them. */
  lemma {:induction false} RunKeepsMatched(s: State, events: seq<Event>)
    requires Inv(s) && MatchedState(s)
    ensures MatchedState(Run(s, events))
    decreases |events|
  {
    hide Inv, MatchedState, Apply;
    if events != [] {
      var front := events[..|events| - 1];
      RunKeepsMatched(s, front);
      RunKeepsInv(s, front);
      StepKeepsMatched(Run(s, front), events[|events| - 1]);
    }
  }

  lemma EmptyIsMatched()
    ensures MatchedState(EMPTY)
  {
  }

  // ----- every state of an operation that began with a known live release -----

  /** A Node application whose live release serves. */
  predicate Serving(w: World) {
    LiveServed(w) && AllNode(w) && Matched(w)
  }

  ghost predicate ServingState(s: State) {
    match s.job
    case Idle => Serving(s.world)
    case RollingBack(origin, _, _, _, live, _) => Serving(origin) && live.Some?
    case Deploying(origin, config, _, node, _) => Serving(origin) && config.handoff.Some? && node.Some?
  }

  /** A served application whose live record is Completed serves as that record says. */
  lemma LiveServesHere(w: World)
    requires Records(w.deployments) && LiveServed(w) && Matched(w) && PreviousNode(w).Some?
    ensures ServedBy(w, PreviousNode(w).value)
  {
    hide Newest;
    LiveRecord(w);
    var r := PreviousNode(w).value;
    var i :| 0 <= i < |w.deployments| && w.deployments[i] == r;
    assert OnRecordedPort(w.deployments[i], w.running);
  }

  lemma LiveServesAsRecorded(w: World)
    requires Records(w.deployments) && Serving(w) && PreviousNode(w).Some?
    ensures ServedBy(w, PreviousNode(w).value)
  {
    hide Newest, ServedBy, Matched, LiveServed;
    LiveServesHere(w);
  }

  lemma DeployServed(s: State, r: Deployment)
    requires Shaped(s) && s.job.Deploying? && s.job.config.handoff.Some?
    requires s.job.node == Some(r) && ServedBy(s.job.origin, r)
    ensures UpstreamServed(s.world)
  {
    hide PreviousNode, Activated;
    var Deploying(origin, config, d, node, pc) := s.job;
    assert r.unit.value in origin.running && WebUnit(d.id) !in origin.running;
    var w := s.world;
    if w.upstream == r.port {
      assert r.unit.value in w.running;
    } else {
      assert d.unit.value in w.running;
    }
  }

  lemma RollbackServed(s: State, r: Deployment)
    requires Shaped(s) && s.job.RollingBack? && IsNode(s.job.target)
    requires s.job.live == Some(r) && ServedBy(s.job.origin, r) && s.job.target.unit != r.unit
    requires s.job.origin.current.Some?
    ensures UpstreamServed(s.world)
  {
    hide RollbackTarget, ActiveNode;
    var w, target := s.world, s.job.target;
    if w.upstream == r.port && !s.job.rpc.WriteRollback? {
      assert r.unit.value in w.running;
    } else {
      assert target.unit.value in w.running;
    }
  }

  lemma LiveIsServed(w: World)
    requires LiveServed(w)
    ensures UpstreamServed(w)
  {
  }

  lemma OwnNode(s: State)
    requires Inv(s) && s.job.Deploying?
    ensures s.job.node == PreviousNode(s.job.origin) && Records(s.job.origin.deployments)
  {
    hide PreviousNode, Progress, Undoing, Aborting;
  }

  lemma RollbackParties(s: State)
    requires Inv(s) && s.job.RollingBack? && Serving(s.job.origin) && s.job.live.Some?
    ensures var origin, r := s.job.origin, s.job.live.value;
      && PreviousNode(origin) == Some(r) && ServedBy(origin, r) && origin.current == Some(r.release)
      && r.release == ReleaseDir(r.id) && r.unit == Some(WebUnit(r.id))
      && IsNode(s.job.target) && s.job.target.unit != r.unit && s.job.target.unit == Some(WebUnit(s.job.target.id))
      && s.job.target.release == ReleaseDir(s.job.target.id) && s.job.target.release in origin.directories
  {
    hide Newest;
    RollbackParts(s);
    var origin := s.job.origin;
    ActiveIsPrevious(origin);
    LiveRecord(origin);
    LiveServesAsRecorded(origin);
    TargetRecord(origin);
  }

  lemma ActiveIsPrevious(w: World)
    requires ActiveNode(w).Some?
    ensures PreviousNode(w).Some?
  {
    var r := ActiveNode(w).value;
    assert r in w.deployments;
  }

  lemma EveryStateServes(s: State)
    requires Inv(s) && ServingState(s)
    ensures UpstreamServed(s.world)
  {
    hide Listed, Shaped, Newest, UpstreamServed, Serving, Inv;
    match s.job
    case Idle =>
      ServingIsLive(s.world);
      LiveIsServed(s.world);
    case Deploying(origin, _, _, node, _) =>
      OwnNode(s);
      LiveServesAsRecorded(origin);
      ShapedNow(s);
      DeployServed(s, node.value);
    case RollingBack(origin, _, _, _, live, _) =>
      RollbackParties(s);
      ShapedNow(s);
      RollbackServed(s, live.value);
  }

  lemma ShapedNow(s: State)
    requires Inv(s)
    ensures Shaped(s)
  {
    hide Shaped;
  }

  lemma ServingIsLive(w: World)
    requires Serving(w)
    ensures LiveServed(w)
  {
  }

  // ----- the ends of operations -----

  /** Every deploy with a handoff that completes ends with its own unit serving, however it began. */
  lemma CompletedDeployServes(s: State, ok: bool)
    requires Inv(s) && s.job.Deploying? && s.job.pc.Prune? && s.job.config.handoff.Some?
    ensures var w := DeployStep(s, ok).world;
      LiveServed(w) && w.current == Some(s.job.local.release)
  {
    hide Inv, DeployStep, Newest, Expired;
    PruneEndsDeploy(s, ok);
    PruneUnits(s);
  }

  /** Exactly when a failed deploy of an application that was serving ends with nginx on a dead port. */
  lemma FailedDeployServesExactly(s: State, ok: bool)
    requires Inv(s) && s.job.Deploying? && !s.job.pc.Prune? && DeployStep(s, ok).job.Idle?
    requires s.job.config.handoff.Some? && LiveServed(s.job.origin) && Matched(s.job.origin)
    ensures var w, origin, primary := DeployStep(s, ok).world, s.job.origin, s.job.config.handoff.value.primary;
      && w.current == origin.current && w.running == origin.running && w.directories == origin.directories
      && (s.job.node.Some? || !s.job.pc.Undo? ==> LiveServed(w))
      && (UpstreamServed(w) <==>
            !(s.job.pc.Undo? && s.job.node.None? && forall u :: u in origin.running ==> origin.running[u] != primary))
  {
    hide DeployStep, Listed, Progress, Aborting, Newest, Activated;
    DeployJob(s, ok);
    FailureEnds(s, ok);
    OwnNode(s);
    var origin, d, w := s.job.origin, s.job.local, DeployStep(s, ok).world;
    if s.job.node.Some? {
      LiveRecord(origin);
      var r := PreviousNode(origin).value;
      var i :| 0 <= i < |origin.deployments| && origin.deployments[i] == r;
      assert OnRecordedPort(origin.deployments[i], origin.running);
    }
    if LiveServed(w) { LiveIsServed(w); }
  }

  /** Where a rollback can end, and what runs then. */
  lemma RollbackEndsUnits(s: State, ok: bool)
    requires Shaped(s) && s.job.RollingBack? && RollbackStep(s, ok).job.Idle? && IsNode(s.job.target)
    requires s.job.origin.current.Some?
    ensures var w, origin, target, live := RollbackStep(s, ok).world, s.job.origin, s.job.target, s.job.live;
      && w.directories == origin.directories
      && match s.job.rpc
         case StartTarget => w.running == origin.running && w.upstream == origin.upstream && w.current == origin.current
         case ActivateTarget =>
           w.running == WithUnit(origin.running, target) && w.upstream == origin.upstream && w.current == origin.current
         case DrainLive =>
           w.running == WithUnit(origin.running, target) && w.upstream == target.port
             && w.current == Some(target.release)
         case WriteRollback =>
           && w.upstream == target.port && w.current == Some(target.release)
           && w.running == WithUnit(origin.running, target)
                - (if live.Some? && live.value.unit.Some? && live.value.unit != target.unit
                   then {live.value.unit.value} else {})
         case StopTarget =>
           && w.running == origin.running - {target.unit.value} && w.current == origin.current
           && w.upstream == s.world.upstream
           && (w.upstream == origin.upstream
               || w.upstream == (if PortOf(live).Some? then PortOf(live) else target.port))
         case _ => false
  {
    hide RollbackTarget, ActiveNode, Upsert;
  }

  /** What is served when a rollback of an application that was serving ends. */
  lemma RollbackEndServes(s: State, ok: bool)
    requires Inv(s) && s.job.RollingBack? && RollbackStep(s, ok).job.Idle? && IsNode(s.job.target)
    requires LiveServed(s.job.origin) && Matched(s.job.origin)
    ensures var w, origin, target := RollbackStep(s, ok).world, s.job.origin, s.job.target;
      && (s.job.live.Some? || !s.job.rpc.StopTarget? || s.world.upstream == origin.upstream ==> LiveServed(w))
      && (UpstreamServed(w) <==>
            !(s.job.rpc.StopTarget? && s.world.upstream == target.port
              && forall u :: u in origin.running && Some(u) != target.unit ==> origin.running[u] != target.port.value))
  {
    hide RollbackStep, RollingForward, Newest;
    ShapedNow(s);
    RollbackParts(s);
    RollbackEndsUnits(s, ok);
    hide Inv;
    var origin, target, w := s.job.origin, s.job.target, RollbackStep(s, ok).world;
    TargetRecord(origin);
    if s.job.live.Some? {
      ActiveIsPrevious(origin);
      LiveRecord(origin);
      var r := PreviousNode(origin).value;
      var i :| 0 <= i < |origin.deployments| && origin.deployments[i] == r;
      assert OnRecordedPort(origin.deployments[i], origin.running);
      assert s.job.live == Some(r) && PortOf(s.job.live) == origin.upstream;
    }
    var u := WebUnit(origin.current.value.id);
    assert target.unit == Some(WebUnit(target.id)) && target.unit != Some(u);
    match s.job.rpc {
      case StartTarget => assert LiveServed(w);
      case ActivateTarget => assert LiveServed(w);
      case DrainLive => assert LiveServed(w);
      case WriteRollback => assert LiveServed(w);
      case StopTarget =>
        assert s.job.live.Some? ==> w.upstream == origin.upstream;
        assert w.upstream == origin.upstream ==> LiveServed(w);
        forall v | v in origin.running && Some(v) != target.unit
          ensures v in w.running && w.running[v] == origin.running[v]
        {
        }
        assert forall v :: v in w.running ==> v in origin.running && Some(v) != target.unit;
      case _ =>
    }
    if LiveServed(w) { LiveIsServed(w); }
  }

  // ----- whole rollbacks -----

  /** The check after the switch to the target fails. */
  predicate FailsHealth(s: State, e: Event) {
    s.job.RollingBack? && s.job.rpc.HealthTarget? && e == Outcome(false)
  }

  /** In the run a rollback's check after its switch failed. */
  predicate HealthFailed(s: State, events: seq<Event>)
    decreases |events|
  {
    events != [] &&
    (HealthFailed(s, events[..|events| - 1]) || FailsHealth(Run(s, events[..|events| - 1]), events[|events| - 1]))
  }

  /** What the step of a rollback says of whether that check has failed. */
  ghost predicate Told(s: State, failed: bool)
    requires s.job.RollingBack?
  {
    match s.job.rpc
    case Reactivate(reset) => reset == failed
    case ResetUpstream => failed
    case StopTarget =>
      s.world.upstream ==
        if !failed then s.job.origin.upstream
        else if PortOf(s.job.live).Some? then PortOf(s.job.live)
        else s.job.target.port
    case _ => !failed
  }

  lemma RollbackStepTells(s: State, ok: bool, failed: bool)
    requires s.job.RollingBack? && Shaped(s) && Told(s, failed) && RollbackStep(s, ok).job.RollingBack?
    ensures Told(RollbackStep(s, ok), failed || FailsHealth(s, Outcome(ok)))
  {
    hide RollbackTarget, ActiveNode, Upsert;
  }

  lemma {:induction false} RollbackTells(s: State, events: seq<Event>)
    requires Inv(s) && s.job.RollingBack? && s.job.rpc.StartTarget? && Busy(s, events)
    ensures var t := Run(s, events);
      t.job.RollingBack? && t.job == s.job.(rpc := t.job.rpc) && Told(t, HealthFailed(s, events))
    decreases |events|
  {
    hide Inv, Told, RollbackStep, CancelStep, FailsHealth;
    if events == [] {
      StartTells(s);
    } else {
      var front, e := events[..|events| - 1], events[|events| - 1];
      var t := Run(s, front);
      RollbackTells(s, front);
      RunKeepsInv(s, front);
      NothingFails(t, e);
      match e
      case Outcome(ok) =>
        ShapedNow(t);
        RollbackWrites(t, ok);
        RollbackStepTells(t, ok, HealthFailed(s, front));
      case Deploy(_, _) =>
      case Rollback(_) =>
      case _ => CancelTells(t, e, HealthFailed(s, front));
    }
  }

  lemma StartTells(s: State)
    requires s.job.RollingBack? && s.job.rpc.StartTarget?
    ensures Told(s, false)
  {
  }

  lemma NothingFails(s: State, e: Event)
    ensures !e.Outcome? ==> !FailsHealth(s, e)
  {
  }

  lemma CancelTells(s: State, e: Event, failed: bool)
    requires s.job.RollingBack? && Told(s, failed) && (e.CancelRead? || e.CancelMark? || e.CancelWrite?)
    ensures CancelStep(s, e).job == s.job && Told(CancelStep(s, e), failed)
  {
    hide CancelStep;
    CancelEffect(s, e);
  }

  /** A whole rollback, from its start to the step that ends it. */
  ghost predicate WholeRollback(s: State, id: Id, events: seq<Event>, ok: bool) {
    var start := Apply(s, Rollback(id));
    && Inv(s) && s.job.Idle? && start.job.RollingBack?
    && Busy(start, events) && Apply(Run(start, events), Outcome(ok)).job.Idle?
  }

  /**
   Exactly when a rollback of a served application to a Node release ends with nginx on a dead port, with any
   cancellations in between: the check after the switch failed, the record of the live release was not
   Completed when the rollback began, and no other unit than the target's ran on the target's port.
   */
  lemma RollbackServesExactly(s: State, id: Id, events: seq<Event>, ok: bool)
    requires WholeRollback(s, id, events, ok) && LiveServed(s.world) && Matched(s.world)
    requires RollbackTarget(s.world).Some? && IsNode(RollbackTarget(s.world).value)
    ensures
      var start, target := Apply(s, Rollback(id)), RollbackTarget(s.world).value;
      var w, failed := Apply(Run(start, events), Outcome(ok)).world, HealthFailed(start, events);
      && (!failed || PreviousNode(s.world).Some? ==> LiveServed(w))
      && (UpstreamServed(w) <==>
            || !failed
            || PreviousNode(s.world).Some?
            || exists u :: u in s.world.running && Some(u) != target.unit && s.world.running[u] == target.port.value)
  {
    hide Inv, Told, RollbackStep, LiveServed, Matched, UpstreamServed, Newest, HealthFailed, Busy, Has;
    var start := Apply(s, Rollback(id));
    StepKeepsInv(s, Rollback(id));
    RollbackTells(start, events);
    RunKeepsInv(start, events);
    var t := Run(start, events);
    RollbackEndServes(t, ok);
    ToldAtEnd(t, ok, HealthFailed(start, events));
    RecordsOf(s);
    if PreviousNode(s.world).Some? { PreviousIsActive(s.world); }
    if ActiveNode(s.world).Some? { ActiveIsPrevious(s.world); }
    if LiveServed(Apply(t, Outcome(ok)).world) { LiveIsServed(Apply(t, Outcome(ok)).world); }
  }

  lemma RecordsOf(s: State)
    requires Inv(s)
    ensures Records(s.world.deployments)
  {
  }

  lemma ToldAtEnd(s: State, ok: bool, failed: bool)
    requires s.job.RollingBack? && Told(s, failed) && RollbackStep(s, ok).job.Idle?
    ensures failed ==> s.job.rpc.StopTarget? && (PortOf(s.job.live).None? ==> s.world.upstream == s.job.target.port)
    ensures !failed && s.job.rpc.StopTarget? ==> s.world.upstream == s.job.origin.upstream
  {
    hide Upsert;
  }

  // ----- every state of any operation that began while the application was served -----

  /** The failed deploy has stopped its unit, and had found no live record. */
  predicate UnitUndone(job: Job) {
    job.Deploying? && job.node.None? && job.pc.Undo? && job.pc.undo in {UndoRecord, UndoCurrent, UndoDirectory}
  }

  lemma DeployingServesExactly(s: State)
    requires Inv(s) && s.job.Deploying? && s.job.config.handoff.Some? && LiveServed(s.job.origin)
      && Matched(s.job.origin)
    ensures var origin, primary := s.job.origin, s.job.config.handoff.value.primary;
      UpstreamServed(s.world) <==>
        !UnitUndone(s.job) || exists u :: u in origin.running && origin.running[u] == primary
  {
    hide Listed, Newest, Activated;
    var origin, w, d := s.job.origin, s.world, s.job.local;
    OwnNode(s);
    var u := WebUnit(origin.current.value.id);
    assert u in origin.running && WebUnit(d.id) !in origin.running;
    if s.job.node.Some? {
      LiveServesHere(origin);
      DeployServed(s, s.job.node.value);
    } else if !UnitUndone(s.job) {
      if w.upstream == origin.upstream { assert u in w.running; } else { assert WebUnit(d.id) in w.running; }
    }
  }

  lemma RollingServes(s: State)
    requires Inv(s) && s.job.RollingBack? && IsNode(s.job.target) && LiveServed(s.job.origin) && Matched(s.job.origin)
    ensures UpstreamServed(s.world)
  {
    hide Listed, Newest;
    RollbackParts(s);
    var origin, target, w := s.job.origin, s.job.target, s.world;
    TargetRecord(origin);
    var u := WebUnit(origin.current.value.id);
    if s.job.live.Some? {
      ActiveIsPrevious(origin);
      LiveRecord(origin);
      LiveServesHere(origin);
    }
    if w.upstream == origin.upstream && !s.job.rpc.WriteRollback? {
      assert u in w.running;
    } else {
      assert target.unit.value in w.running;
    }
  }

  /**
   Whatever record an operation found: while it runs, nginx points at a started unit at every step, except
   that a deploy that found no live record and failed after its switch leaves it, from the stop of its unit
   on, on the primary port, where perhaps nothing runs.
   */
  lemma EveryStepServesExactly(s: State)
    requires Inv(s) && !s.job.Idle? && LiveServed(s.job.origin) && Matched(s.job.origin)
    requires s.job.Deploying? ==> s.job.config.handoff.Some?
    requires s.job.RollingBack? ==> IsNode(s.job.target)
    ensures UpstreamServed(s.world) <==>
      || !UnitUndone(s.job)
      || exists u :: u in s.job.origin.running && s.job.origin.running[u] == s.job.config.handoff.value.primary
  {
    hide Inv, LiveServed, Matched, UpstreamServed;
    if s.job.Deploying? { DeployingServesExactly(s); } else { RollingServes(s); }
  }

  // ----- whole runs -----

  predicate WithHandoff(events: seq<Event>) {
    forall i :: 0 <= i < |events| && events[i].Deploy? ==> events[i].config.handoff.Some?
  }

  /** This event starts a deploy or a rollback while the record of the live release is not Completed. */
  predicate Unattended(s: State, e: Event) {
    s.job.Idle? && !Apply(s, e).job.Idle? && PreviousNode(s.world).None?
  }

  /** Every operation of the run starts while the record of the live release is Completed. */
  predicate Attended(s: State, events: seq<Event>)
    decreases |events|
  {
    events == [] ||
    (Attended(s, events[..|events| - 1]) && !Unattended(Run(s, events[..|events| - 1]), events[|events| - 1]))
  }

  lemma PreviousIsActive(w: World)
    requires Records(w.deployments) && PreviousNode(w).Some?
    ensures ActiveNode(w).Some?
  {
    LiveRecord(w);
  }

  lemma DeployEndsServing(s: State, ok: bool)
    requires Inv(s) && ServingState(s) && s.job.Deploying? && DeployStep(s, ok).job.Idle?
    ensures Serving(DeployStep(s, ok).world)
  {
    hide Inv, DeployStep, AllNode, Matched, LiveServed, UpstreamServed;
    DeployEndsMatched(s, ok);
    if s.job.pc.Prune? { CompletedDeployServes(s, ok); } else { FailedDeployServesExactly(s, ok); }
  }

  lemma RollbackEndsServing(s: State, ok: bool)
    requires Inv(s) && ServingState(s) && s.job.RollingBack? && RollbackStep(s, ok).job.Idle?
    ensures Serving(RollbackStep(s, ok).world)
  {
    RollbackParties(s);
    hide Inv, RollbackStep, AllNode, Matched, LiveServed, UpstreamServed;
    RollbackKeepsMatched(s, ok);
    RollbackEndServes(s, ok);
  }

  lemma StartServes(s: State, e: Event)
    requires Inv(s) && ServingState(s) && (e.Deploy? || e.Rollback?) && !Unattended(s, e)
    requires e.Deploy? ==> e.config.handoff.Some?
    ensures ServingState(Apply(s, e))
  {
    hide Shaped, Serving, Newest, Fresh;
    if s.job.Idle? && PreviousNode(s.world).Some? { PreviousIsActive(s.world); }
  }

  lemma StepKeepsServing(s: State, e: Event)
    requires Inv(s) && ServingState(s) && !Unattended(s, e) && (e.Deploy? ==> e.config.handoff.Some?)
    ensures ServingState(Apply(s, e))
  {
    hide Inv, Serving, DeployStep, RollbackStep, CancelStep, Unattended;
    match e
    case Deploy(_, _) => StartServes(s, e);
    case Rollback(_) => StartServes(s, e);
    case Outcome(ok) =>
      if s.job.Deploying? {
        DeployJob(s, ok);
        if DeployStep(s, ok).job.Idle? { DeployEndsServing(s, ok); }
      } else if s.job.RollingBack? {
        RollbackWrites(s, ok);
        if RollbackStep(s, ok).job.Idle? { RollbackEndsServing(s, ok); }
      }
    case _ =>
      CancelEffect(s, e);
      if s.job.Idle? { CancelServes(s, e); }
  }

  lemma CancelServes(s: State, e: Event)
    requires Inv(s) && s.job.Idle? && Serving(s.world) && (e.CancelRead? || e.CancelMark? || e.CancelWrite?)
    ensures Serving(CancelStep(s, e).world)
  {
    hide Inv, CancelStep, Matched, AllNode;
    CancelEffect(s, e);
    CancelKeepsMatched(s, e);
  }

  /**
   From a serving Node release on, with a handoff in every deploy and every operation started while the
   record of the live release is Completed: at every step of every deploy and rollback, successful, failing
   or cancelled, nginx points at a started unit.  Between operations that is the unit of the live release, on
   the port recorded for it; cancellations may write records at any time.
   */
  lemma {:induction false} ZeroDowntime(s: State, events: seq<Event>)
    requires Inv(s) && ServingState(s)
    requires Attended(s, events) && WithHandoff(events)
    ensures var t := Run(s, events);
      && ServingState(t) && UpstreamServed(t.world)
      && (t.job.Idle? ==>
            && LiveServed(t.world)
            && (PreviousNode(t.world).Some? ==> ServedBy(t.world, PreviousNode(t.world).value)))
    decreases |events|
  {
    hide Inv, ServingState, Apply, Unattended, UpstreamServed, PreviousNode, ServedBy, LiveServed;
    if events != [] {
      var front := events[..|events| - 1];
      ZeroDowntime(s, front);
      RunKeepsInv(s, front);
      StepKeepsServing(Run(s, front), events[|events| - 1]);
    }
    RunKeepsInv(s, events);
    EveryStateServes(Run(s, events));
    IdleServes(Run(s, events));
  }

  lemma IdleServes(s: State)
    requires Inv(s) && ServingState(s)
    ensures s.job.Idle? ==>
      && LiveServed(s.world)
      && (PreviousNode(s.world).Some? ==> ServedBy(s.world, PreviousNode(s.world).value))
  {
    hide Shaped, PreviousNode, ServedBy;
    if s.job.Idle? && PreviousNode(s.world).Some? { LiveServesAsRecorded(s.world); }
  }

  // ----- when the record of the live release is known -----

  /** A cancellation's write makes the live release unknown exactly if it is its record that it writes. */
  lemma WriteHidesLiveRecord(s: State, k: nat)
    requires Inv(s) && s.job.Idle? && k in s.requests && s.requests[k].marked && PreviousNode(s.world).Some?
    ensures var r := PreviousNode(s.world).value;
      PreviousNode(Apply(s, CancelWrite(k)).world) == if s.requests[k].snapshot.id == r.id then None else Some(r)
  {
    hide Shaped, Newest, Related, Has, CompletedOf;
    var w, v, c := s.world, Apply(s, CancelWrite(k)).world, s.requests[k].snapshot.(status := Cancelling);
    LiveRecord(w);
    LateWriteLosesRelease(s, k);
    var r := PreviousNode(w).value;
    StepKeepsInv(s, CancelWrite(k));
    if c.id == r.id {
      LiveNodeInHistory(v);
    } else {
      UpsertInPlace(w.deployments, c);
      var i :| 0 <= i < |w.deployments| && w.deployments[i] == r;
      HasIfFound(w.deployments, c.id);
      assert v.deployments[i] == r && r in v.deployments;
      LiveNodeIs(v, r);
    }
  }

  /**
   Between the operations of any run of a Node application, the record of the live release is Completed, so
   that the next operation finds it, if and only if no cancellation overwrote it after its deploy's last write.
   */
  lemma LiveRecordKnown(events: seq<Event>)
    requires var s := Run(EMPTY, events); s.job.Idle? && NoDangling(s.world) && AllNode(s.world)
    ensures var w := Run(EMPTY, events).world;
      PreviousNode(w).Some? <==> w.current.Some? && w.current.value.id !in Demoted(EMPTY, events)
  {
    hide Newest, Inv, Run, CompletedOf;
    SafeExactly(events);
    var w := Run(EMPTY, events).world;
    KnownNode(w);
  }

  lemma KnownNode(w: World)
    requires AllNode(w)
    ensures PreviousNode(w).Some? <==> w.current.Some? && w.current.value in ReleasesOf(History(w))
  {
    LiveNodeInHistory(w);
    if w.current.Some? && w.current.value in ReleasesOf(History(w)) {
      var r :| r in History(w) && r.release == w.current.value;
      assert r in w.deployments;
    }
  }
}
