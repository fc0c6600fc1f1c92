/** Runs from the empty state that reach what the other modules say the code does not rule out. */
module ReleaseScenarios {
  import opened Results
  import opened Releases
  import opened ReleaseInvariant
  import opened ReleaseHistory
  import opened ReleaseCompletions
  import opened ReleaseProgress
  import opened ReleaseOutcomes
  import opened ReleaseServing
  import opened ReleaseRetention
  import opened ReleasePorts
  import opened ReleasePhases

  /** Every deploy of these events has this configuration. */
  predicate Uses(events: seq<Event>, config: Config) {
    forall i :: 0 <= i < |events| && events[i].Deploy? ==> events[i].config == config
  }

  lemma UsesAppend(first: seq<Event>, second: seq<Event>, config: Config)
    requires Uses(first, config) && Uses(second, config)
    ensures Uses(first + second, config)
  {
  }

  /** Deploys of this configuration, and no rollback. */
  predicate DeploysOnly(events: seq<Event>, config: Config) {
    Uses(events, config) && forall i :: 0 <= i < |events| ==> !events[i].Rollback?
  }

  lemma DeploysOnlyAppend(first: seq<Event>, second: seq<Event>, config: Config)
    requires DeploysOnly(first, config) && DeploysOnly(second, config)
    ensures DeploysOnly(first + second, config)
  {
  }

  lemma NoDeployUses(events: seq<Event>, config: Config)
    requires NoDeploy(events)
    ensures Uses(events, config)
  {
  }

  // ----- a deploy that succeeds -----

  ghost predicate Resting(s: State) {
    Inv(s) && s.job.Idle?
  }

  /** A deploy that nothing disturbs, from its start to its end. */
  lemma DeployOk(s: State, id: Id, config: Config) returns (events: seq<Event>)
    requires Resting(s) && Fresh(s.world, id) && id !in s.world.markers
    requires config.handoff.Some? && config.handoff.value.Valid()
    ensures DeploysOnly(events, config)
    ensures var t := Run(s, events);
      && Resting(t) && t.requests == s.requests && t.world.markers == s.world.markers
      && DeployedFrom(s.world, config, id, t.world)
      && t.world.deployments[..|s.world.deployments|] == s.world.deployments
      && UnitsHandedOver(s.world, config, id, t.world.running)
  {
    hide Inv, DeployedFrom, UnitsHandedOver, PreviousNode, Fresh, Undisturbed;
    var start := Apply(s, Deploy(id, config));
    StepKeepsInv(s, Deploy(id, config));
    StartIsUndisturbed(s, id, config);
    var n := UndisturbedDeployCompletes(start);
    events := [Deploy(id, config)] + Oks(n);
    RunOne(s, Deploy(id, config), Oks(n));
  }

  lemma StartIsUndisturbed(s: State, id: Id, config: Config)
    requires Resting(s) && Fresh(s.world, id) && id !in s.world.markers
    requires config.handoff.Some? && config.handoff.value.Valid()
    requires Inv(Apply(s, Deploy(id, config)))
    ensures var start := Apply(s, Deploy(id, config));
      && Undisturbed(start) && DrainsUnit(start) && start.requests == s.requests
         && start.world.markers == s.world.markers
      && start.job == Deploying(s.world, config, NewRecord(s.world, id), PreviousNode(s.world), Fetch)
      && start.world == s.world.(deployments := s.world.deployments + [NewRecord(s.world, id)])
  {
    assert Listed(s);
    UpsertNew(s.world.deployments, NewRecord(s.world, id));
    hide Inv, PreviousNode, Fresh;
  }

  // ----- two deploys with one handoff -----

  predicate IsNodeRecord(r: Deployment, id: Id, port: Port) {
    && r.id == id && r.status == Completed && r.release == ReleaseDir(id)
    && r.unit == Some(WebUnit(id)) && r.port == Some(port)
  }

  predicate FirstDeployed(w: World, h: Handoff, a: Id) {
    && |w.deployments| == 1 && IsNodeRecord(w.deployments[0], a, h.primary)
    && w.directories == {ReleaseDir(a)} && w.current == Some(ReleaseDir(a))
    && w.running == map[WebUnit(a) := h.primary] && w.upstream == Some(h.primary)
  }

  predicate BothDeployed(w: World, h: Handoff, a: Id, b: Id) {
    && |w.deployments| == 2
    && IsNodeRecord(w.deployments[0], a, h.primary) && IsNodeRecord(w.deployments[1], b, h.secondary)
    && w.directories == {ReleaseDir(a), ReleaseDir(b)} && w.current == Some(ReleaseDir(b))
    && w.running == map[WebUnit(b) := h.secondary] && w.upstream == Some(h.secondary)
  }

  lemma FirstOf(w: World, config: Config, a: Id)
    requires DeployedFrom(EMPTY.world, config, a, w) && UnitsHandedOver(EMPTY.world, config, a, w.running)
    requires config.handoff.Some? && config.retention >= 2
    ensures FirstDeployed(w, config.handoff.value, a)
  {
    assert |CompletedOf(w.deployments)| <= 1 by { ShortHistory(w.deployments); }
    assert PreviousNode(EMPTY.world).None?;
    assert EMPTY.world.running - {} == EMPTY.world.running;
  }

  lemma {:induction false} ShortHistory(ds: seq<Deployment>)
    ensures |CompletedOf(ds)| <= |ds|
    decreases |ds|
  {
    if ds != [] {
      ShortHistory(ds[..|ds| - 1]);
      HistoryOfLast(ds);
    }
  }

  lemma LiveAt(w: World, k: nat)
    requires Records(w.deployments) && k < |w.deployments|
    requires w.deployments[k].status == Completed && w.current == Some(w.deployments[k].release)
      && w.deployments[k].unit.Some?
    ensures PreviousNode(w) == Some(w.deployments[k]) && ActiveNode(w) == Some(w.deployments[k])
  {
    assert w.deployments[k] in w.deployments && w.deployments[k] in History(w);
    LiveNodeIs(w, w.deployments[k]);
  }

  lemma SecondOf(v: World, w: World, config: Config, a: Id, b: Id)
    requires config.handoff.Some? && config.handoff.value.Valid() && config.retention >= 2 && a != b
    requires FirstDeployed(v, config.handoff.value, a) && Records(v.deployments)
    requires DeployedFrom(v, config, b, w) && UnitsHandedOver(v, config, b, w.running)
    requires w.deployments[..1] == v.deployments
    ensures BothDeployed(w, config.handoff.value, a, b)
  {
    LiveAt(v, 0);
    assert |CompletedOf(w.deployments)| <= 2 by { ShortHistory(w.deployments); }
    assert w.deployments[0] == w.deployments[..1][0];
  }

  /** The first deploy, and the world in which the second begins. */
  lemma FirstDeploy(config: Config, a: Id) returns (events: seq<Event>)
    requires config.handoff.Some? && config.handoff.value.Valid() && config.retention >= 2
    ensures DeploysOnly(events, config)
    ensures var t := Run(EMPTY, events);
      Resting(t) && t.requests == map[] && t.world.markers == {} && FirstDeployed(t.world, config.handoff.value, a)
      && Records(t.world.deployments)
  {
    hide DeployedFrom, UnitsHandedOver, FirstDeployed, Shaped, Run;
    EmptyIsAccounted();
    events := DeployOk(EMPTY, a, config);
    FirstOf(Run(EMPTY, events).world, config, a);
  }

  lemma FreshAfterFirst(w: World, h: Handoff, a: Id, b: Id)
    requires FirstDeployed(w, h, a) && a != b
    ensures Fresh(w, b)
  {
  }

  // ----- two releases on one port -----

  /** A rollback of Node releases whose calls all succeed. */
  lemma RollbackOk(s: State, id: Id)
    requires Resting(s) && !Has(s.world.deployments, id) && RollbackTarget(s.world).Some? && ActiveNode(s.world).Some?
    requires IsNode(RollbackTarget(s.world).value)
    ensures var t, target := Run(s, [Rollback(id)] + Oks(7)), RollbackTarget(s.world).value;
      && Resting(t) && t.requests == s.requests && t.world.markers == s.world.markers
      && t.world.directories == s.world.directories && t.world.current == Some(target.release)
      && (forall u :: u in t.world.running ==> u in s.world.running || target.unit == Some(u))
      && t.world.deployments == s.world.deployments + [RollbackRecord(target, id, s.world.current)]
  {
    hide RollbackTarget, ActiveNode, Upsert, Shaped, Has;
    UpsertNew(s.world.deployments, RollbackRecord(RollbackTarget(s.world).value, id, s.world.current)) by {
      RollbackRecordIsProper(RollbackTarget(s.world).value, id, s.world.current);
    }
    var u := Apply(s, Rollback(id));
    RunOne(s, Rollback(id), Oks(7));
    SevenOks(u);
    RunKeepsInv(s, [Rollback(id)] + Oks(7));
  }

  lemma RollbackRecordIsProper(target: Deployment, id: Id, before: Option<Release>)
    ensures Proper(RollbackRecord(target, id, before)) && RollbackRecord(target, id, before).id == id
  {
  }

  lemma OksSplit(s: State, n: nat)
    requires n > 0
    ensures Run(s, Oks(n)) == Run(Apply(s, Outcome(true)), Oks(n - 1))
  {
    assert Oks(n) == [Outcome(true)] + Oks(n - 1);
    RunOne(s, Outcome(true), Oks(n - 1));
  }

  lemma SevenOks(s: State)
    requires s.job.RollingBack? && s.job.rpc.StartTarget? && IsNode(s.job.target)
    ensures var t, target := Run(s, Oks(7)), s.job.target;
      && t.job.Idle? && t.requests == s.requests && t.world.markers == s.world.markers
      && t.world.directories == s.world.directories && t.world.current == Some(target.release)
      && (forall u :: u in t.world.running ==> u in s.world.running || target.unit == Some(u))
      && t.world.deployments == Upsert(s.world.deployments, RollbackRecord(target, s.job.record, s.job.before))
  {
    hide Upsert, DeployStep, CancelStep;
    OksSplit(s, 7);
    var s1 := Apply(s, Outcome(true));
    OksSplit(s1, 6);
    var s2 := Apply(s1, Outcome(true));
    OksSplit(s2, 5);
    var s3 := Apply(s2, Outcome(true));
    FourOks(s3);
  }

  lemma FourOks(s: State)
    requires s.job.RollingBack? && s.job.rpc.SwitchTarget? && IsNode(s.job.target)
    ensures var t, target := Run(s, Oks(4)), s.job.target;
      && t.job.Idle? && t.requests == s.requests && t.world.markers == s.world.markers
      && t.world.directories == s.world.directories && t.world.current == s.world.current
      && (forall u :: u in t.world.running ==> u in s.world.running)
      && t.world.deployments == Upsert(s.world.deployments, RollbackRecord(target, s.job.record, s.job.before))
  {
    hide Upsert, DeployStep, CancelStep;
    OksSplit(s, 4);
    var s1 := Apply(s, Outcome(true));
    OksSplit(s1, 3);
    var s2 := Apply(s1, Outcome(true));
    OksSplit(s2, 2);
    var s3 := Apply(s2, Outcome(true));
    OksSplit(s3, 1);
    assert Oks(0) == [];
  }

  lemma TargetIsFirst(w: World, h: Handoff, a: Id, b: Id)
    requires BothDeployed(w, h, a, b) && Records(w.deployments) && a != b
    ensures RollbackTarget(w) == Some(w.deployments[0])
    ensures PreviousNode(w) == Some(w.deployments[1]) && ActiveNode(w) == Some(w.deployments[1])
  {
    hide RollbackTarget;
    RollbackGoesTo(w, 1, 0);
    LiveAt(w, 1);
  }

  lemma TwoDeploys(config: Config, a: Id, b: Id) returns (events: seq<Event>)
    requires config.handoff.Some? && config.handoff.value.Valid() && config.retention >= 2 && a != b
    ensures DeploysOnly(events, config)
    ensures var t := Run(EMPTY, events);
      && Resting(t) && t.requests == map[] && t.world.markers == {} && Records(t.world.deployments)
      && BothDeployed(t.world, config.handoff.value, a, b)
  {
    hide DeployedFrom, UnitsHandedOver, FirstDeployed, BothDeployed, Shaped, Run;
    var first := FirstDeploy(config, a);
    var s := Run(EMPTY, first);
    FreshAfterFirst(s.world, config.handoff.value, a, b);
    var second := DeployOk(s, b, config);
    events := first + second;
    DeploysOnlyAppend(first, second, config);
    RunAppend(EMPTY, first, second);
    OneRecord(s.world, config.handoff.value, a);
    SecondOf(s.world, Run(s, second).world, config, a, b);
  }

  lemma OneRecord(w: World, h: Handoff, a: Id)
    requires FirstDeployed(w, h, a)
    ensures |w.deployments| == 1
  {
  }

  /** Deploy, deploy, rollback, deploy with one handoff: the two newest Completed releases have one port. */
  lemma SharedPortHappens(config: Config, a: Id, b: Id, r: Id, c: Id) returns (events: seq<Event>)
    requires config.handoff.Some? && config.handoff.value.Valid() && config.retention >= 3
    requires a != b && r != a && r != b && c != a && c != b && c != r
    ensures Uses(events, config)
    ensures var t := Run(EMPTY, events); var ds := t.world.deployments;
      && t.job.Idle? && |ds| == 4 && ds[2].status == RolledBack
      && ds[1].status == Completed && ds[3].status == Completed && ds[1].id == b && ds[3].id == c
      && ds[1].port.Some? && ds[1].port == ds[3].port
  {
    hide Shaped, Run, RollbackTarget, PreviousNode, ActiveNode, UnitsHandedOver;
    var h := config.handoff.value;
    var two := TwoDeploys(config, a, b);
    var s := Run(EMPTY, two);
    var rolls := [Rollback(r)] + Oks(7);
    TargetIsFirst(s.world, h, a, b);
    RollbackOk(s, r);
    var u := Run(s, rolls);
    RunAppend(EMPTY, two, rolls);
    assert u.world.deployments[0] == s.world.deployments[0];
    LiveAt(u.world, 0);
    var third := DeployOk(u, c, config);
    events := two + rolls + third;
    assert NoDeploy(rolls);
    NoDeployUses(rolls, config);
    UsesAppend(two, rolls, config);
    UsesAppend(two + rolls, third, config);
    RunAppend(EMPTY, two + rolls, third);
    var ds := Run(u, third).world.deployments;
    assert ds[..3][1] == ds[1] && ds[..3][2] == ds[2];
  }

  // ----- nginx on a dead port -----

  /** A deploy that nothing disturbs, whose record is read for a cancellation when it begins. */
  lemma ReadDeployOk(s: State, id: Id, config: Config) returns (events: seq<Event>)
    requires Resting(s) && s.requests == map[] && Fresh(s.world, id) && id !in s.world.markers
    requires config.handoff.Some? && config.handoff.value.Valid()
    ensures DeploysOnly(events, config)
    ensures var t := Run(s, events);
      && Resting(t) && t.requests == map[0 := Request(NewRecord(s.world, id), false)]
         && t.world.markers == s.world.markers
      && DeployedFrom(s.world, config, id, t.world)
      && t.world.deployments[..|s.world.deployments|] == s.world.deployments
      && UnitsHandedOver(s.world, config, id, t.world.running)
  {
    hide Inv, DeployedFrom, UnitsHandedOver, PreviousNode, Fresh, Undisturbed;
    LateWriteStart(s, id, config);
    var begin := [Deploy(id, config), CancelRead(0, id)];
    var start := Run(s, begin);
    assert start.world.deployments[..|s.world.deployments|] == s.world.deployments;
    hide Run;
    assert DrainsUnit(start);
    var n := UndisturbedDeployCompletes(start);
    events := begin + Oks(n);
    RunAppend(s, begin, Oks(n));
  }

  /** A cancellation read before overwrites the record of the live Node release: the release is unknown then. */
  lemma OverwriteLive(s: State, id: Id)
    requires Resting(s) && 0 in s.requests && s.requests[0].snapshot.id == id
    requires s.world.current == Some(ReleaseDir(id))
    ensures var t := Run(s, [CancelMark(0), CancelWrite(0)]); var w, ds := t.world, s.world.deployments;
      && Resting(t) && w.markers == s.world.markers + {id} && PreviousNode(w).None?
      && w.directories == s.world.directories && w.current == s.world.current
      && w.running == s.world.running && w.upstream == s.world.upstream
      && |w.deployments| == |ds|
      && forall i :: 0 <= i < |ds| ==>
           if ds[i].id == id then w.deployments[i].id == id && w.deployments[i].status == Cancelling
           else w.deployments[i] == ds[i]
  {
    hide Inv, Run, PreviousNode, CompletedOf, Standing;
    LateWriteEnd(s, id);
    NodeUnknown(Run(s, [CancelMark(0), CancelWrite(0)]).world, id);
  }

  /** Two releases; the record of the second, which is live on the secondary port, was overwritten. */
  predicate SecondUnknown(w: World, h: Handoff, a: Id, b: Id) {
    && PreviousNode(w).None? && w.markers == {b}
    && |w.deployments| == 2 && IsNodeRecord(w.deployments[0], a, h.primary)
    && w.deployments[1].id == b && w.deployments[1].status == Cancelling
    && w.directories == {ReleaseDir(a), ReleaseDir(b)} && w.current == Some(ReleaseDir(b))
    && w.running == map[WebUnit(b) := h.secondary] && w.upstream == Some(h.secondary)
  }

  /** A run up to a second deploy, whose record a cancellation overwrites after it has completed. */
  lemma LiveRecordOverwritten(config: Config, a: Id, b: Id) returns (events: seq<Event>)
    requires config.handoff.Some? && config.handoff.value.Valid() && config.retention >= 2 && a != b
    ensures DeploysOnly(events, config)
    ensures Resting(Run(EMPTY, events)) && SecondUnknown(Run(EMPTY, events).world, config.handoff.value, a, b)
  {
    hide DeployedFrom, UnitsHandedOver, FirstDeployed, Inv, Run, PreviousNode, Fresh;
    var first := FirstDeploy(config, a);
    var s := Run(EMPTY, first);
    FreshAfterFirst(s.world, config.handoff.value, a, b);
    OneRecord(s.world, config.handoff.value, a);
    var second := ReadDeployOk(s, b, config);
    var t := Run(s, second);
    SecondOf(s.world, t.world, config, a, b);
    OverwriteLive(t, b);
    var end := [CancelMark(0), CancelWrite(0)];
    RunAppend(EMPTY, first, second);
    RunAppend(EMPTY, first + second, end);
    events := first + second + end;
    DeploysOnlyAppend(first, second, config);
    DeploysOnlyAppend(first + second, end, config);
  }

  lemma NodeUnknown(w: World, id: Id)
    requires w.current == Some(ReleaseDir(id)) && ReleaseDir(id) !in ReleasesOf(History(w))
    ensures PreviousNode(w).None?
  {
    LiveNodeInHistory(w);
  }

  // ----- places on the main line -----

  predicate BeforePostDeploy(pc: Pc) {
    OnMainLine(pc) && (Rank(pc) <= 17 || pc == Enter(PostDeploy))
  }

  lemma StageAdvances(s: State)
    requires s.job.Deploying? && InStage(s.job.pc)
    ensures var t := StageStep(s, true);
      && t.job.Deploying? && t.job == s.job.(local := t.job.local, pc := t.job.pc)
      && (OnMainLine(t.job.pc) ==>
            && (Rank(s.job.pc) <= 8 ==> Rank(t.job.pc) <= 9)
            && (s.job.pc == Check(AfterHealth) ==> t.job.pc == Enter(PostDeploy))
            && (s.job.pc == Enter(PostDeploy) && s.job.config.postDeploy > 0 ==>
                  t.job.pc.Guard? && t.job.pc.stage.PostDeploy?))
  {
    hide Upsert, FinishPhase;
  }

  lemma MainAdvances(s: State)
    requires s.job.Deploying? && InMain(s.job.pc) && Rank(s.job.pc) < 17
    ensures var t := MainStep(s, true);
      && t.job.Deploying? && t.job == s.job.(local := t.job.local, pc := t.job.pc)
      && (OnMainLine(t.job.pc) ==>
            && (Rank(s.job.pc) < 10 && s.job.config.handoff.Some? ==> Rank(t.job.pc) <= 10)
            && (Rank(s.job.pc) < 16 ==> Rank(t.job.pc) <= 16)
            && (s.job.pc.Health? ==> t.job.pc == Check(AfterHealth)))
  {
    hide Upsert, ChoosePort;
  }

  /** No successful step skips the start of the unit, the health check or `post_deploy`. */
  lemma Advances(s: State)
    requires s.job.Deploying? && BeforePostDeploy(s.job.pc)
    ensures var t := Apply(s, Outcome(true));
      && t.job.Deploying? && t.job == s.job.(local := t.job.local, pc := t.job.pc)
      && (OnMainLine(t.job.pc) ==>
            && (Rank(s.job.pc) < 10 && s.job.config.handoff.Some? ==> Rank(t.job.pc) <= 10)
            && (Rank(s.job.pc) < 16 ==> Rank(t.job.pc) <= 16)
            && (s.job.config.postDeploy > 0 ==>
                  BeforePostDeploy(t.job.pc) || (t.job.pc.Guard? && t.job.pc.stage.PostDeploy?)))
  {
    hide StageStep, MainStep, Rank;
    if InStage(s.job.pc) {
      StageAdvances(s);
      RankInStage(s.job.pc);
    } else {
      RankInMain(s.job.pc);
      MainAdvances(s);
    }
  }

  lemma RankInStage(pc: Pc)
    requires InStage(pc) && BeforePostDeploy(pc)
    ensures Rank(pc) <= 8 || (Rank(pc) >= 17 && (pc == Check(AfterHealth) || pc == Enter(PostDeploy)))
  {
  }

  lemma RankInMain(pc: Pc)
    requires InMain(pc) && BeforePostDeploy(pc)
    ensures Rank(pc) < 17 && (pc.Health? <==> Rank(pc) == 16) && BeforePostDeploy(Check(AfterHealth))
  {
  }

  /** The main line up to the start of the unit, or up to the health check. */
  lemma {:induction false} PlaceIsReached(s: State, rank: nat) returns (n: nat)
    requires Undisturbed(s) && Rank(s.job.pc) <= rank
    requires rank == 16 || (rank == 10 && s.job.config.handoff.Some?)
    ensures var t := Run(s, Oks(n));
      && Undisturbed(t) && Rank(t.job.pc) == rank && t.job == s.job.(local := t.job.local, pc := t.job.pc)
      && t.job.local.id == s.job.local.id
    decreases StepsLeft(s.job)
  {
    hide StepsLeft, Apply, Inv, Rank;
    if Rank(s.job.pc) == rank {
      n := 0;
    } else {
      OkStep(s);
      Advances(s);
      var t := Apply(s, Outcome(true));
      var m := PlaceIsReached(t, rank);
      n := m + 1;
      assert Oks(n) == [Outcome(true)] + Oks(m);
      RunOne(s, Outcome(true), Oks(m));
    }
  }

  lemma PlaceOf(s: State)
    requires Undisturbed(s)
    ensures var pc := s.job.pc;
      Inv(s) && (pc.Health? <==> Rank(pc) == 16) && (pc.StartUnit? <==> Rank(pc) == 10)
        && (pc.Fetch? <==> Rank(pc) == 0)
  {
    hide Inv;
  }

  /** The validation-failure branch, run to its end; what it leaves of nginx and of the record. */
  lemma {:induction false} UndoCompletes(s: State) returns (n: nat)
    requires Inv(s) && s.job.Deploying? && s.job.pc.Undo?
    ensures var t, id := Run(s, Oks(n)), s.job.local.id;
      && t.job.Idle? && Inv(t) && t.world.markers == s.world.markers && Find(t.world.deployments, id).Some?
      && (LosesUpstream(s) ==> !UpstreamServed(t.world))
      && (var stored := Find(t.world.deployments, id).value;
          if OwnWriteAhead(s.job, id) then stored.status == LastStatus(s) && stored.phases == s.job.local.phases
          else Some(stored) == Find(s.world.deployments, id))
    decreases UndoLeft(s.job.pc.undo)
  {
    hide Inv, Apply, DeployStep, Find, UpstreamServed, LosesUpstream;
    var id := s.job.local.id;
    var t := DeployStep(s, true);
    StepKeepsInv(s, Outcome(true));
    StepOfOutcome(s, true);
    UndoStepOnwards(s);
    if OwnWriteAhead(s.job, id) && !OwnWriteAhead(t.job, id) {
      OwnRecordAtEnd(s, true);
    } else if !OwnWriteAhead(s.job, id) {
      UndoneIsFinal(s);
      DeployStepKeepsRecord(s, true, id);
    }
    if t.job.Idle? {
      n := 1;
      assert Oks(1) == [Outcome(true)] + [];
      RunOne(s, Outcome(true), []);
      if LosesUpstream(s) { UpstreamLost(s); }
    } else {
      var m := UndoCompletes(t);
      n := m + 1;
      assert Oks(n) == [Outcome(true)] + Oks(m);
      RunOne(s, Outcome(true), Oks(m));
    }
  }

  /**
   The deploy of a served application found no previous Node release, and no unit of before runs on
   the primary port.
   */
  ghost predicate LosesUpstream(s: State)
    requires s.job.Deploying?
  {
    var origin, config := s.job.origin, s.job.config;
    && config.handoff.Some? && s.job.node.None? && LiveServed(origin) && Matched(origin)
    && forall u :: u in origin.running ==> origin.running[u] != config.handoff.value.primary
  }

  lemma UpstreamLost(s: State)
    requires Inv(s) && s.job.Deploying? && s.job.pc.Undo? && LosesUpstream(s) && DeployStep(s, true).job.Idle?
    ensures !UpstreamServed(DeployStep(s, true).world)
  {
    hide Inv, DeployStep, UpstreamServed, LiveServed, Matched;
    FailedDeployServesExactly(s, true);
  }

  lemma UndoStepOnwards(s: State)
    requires s.job.Deploying? && s.job.pc.Undo?
    ensures var t := DeployStep(s, true);
      && t.world.markers == s.world.markers
      && (t.job.Idle? <==> s.job.pc.undo.UndoDirectory?)
      && (t.job.Deploying? ==>
            && t.job == s.job.(pc := t.job.pc, local := t.job.local) && t.job.pc.Undo?
               && t.job.pc.phase == s.job.pc.phase
            && t.job.local.id == s.job.local.id && t.job.local.phases == s.job.local.phases
            && UndoLeft(t.job.pc.undo) < UndoLeft(s.job.pc.undo)
            && LastStatus(t) == LastStatus(s) && (LosesUpstream(t) <==> LosesUpstream(s)))
      && (t.job.Idle? || t.job.Deploying?)
  {
    hide Upsert, LiveServed, Matched, Restorable;
  }

  lemma UndoneIsFinal(s: State)
    requires Inv(s) && s.job.Deploying? && !OwnWriteAhead(s.job, s.job.local.id)
    ensures Final(s, s.job.local.id)
    ensures Find(s.world.deployments, s.job.local.id).Some?
  {
    hide Shaped, Related;
    HasAt(s.world.deployments, |s.job.origin.deployments|);
    HasIfFound(s.world.deployments, s.job.local.id);
  }

  /**
   Downtime: the second release is live, on the secondary port, and a late cancellation has overwritten its
   record; a deploy that fails its health check then leaves nginx on the primary port, where nothing runs.
   */
  lemma DowntimeHappens(config: Config, a: Id, b: Id, c: Id) returns (events: seq<Event>)
    requires config.handoff.Some? && config.handoff.value.Valid() && config.retention >= 2
    requires a != b && c != a && c != b
    ensures Uses(events, config)
    ensures Run(EMPTY, events).job.Idle? && !UpstreamServed(Run(EMPTY, events).world)
  {
    hide Inv, Run, Undisturbed, PreviousNode, Fresh, UpstreamServed, Rank, LosesUpstream, LiveServed, Matched, Uses;
    var live := LiveRecordOverwritten(config, a, b);
    var s := Run(EMPTY, live);
    FreshThird(s.world, config.handoff.value, a, b, c);
    StepKeepsInv(s, Deploy(c, config));
    StartIsUndisturbed(s, c, config);
    var start := Apply(s, Deploy(c, config));
    PlaceOf(start);
    var n := PlaceIsReached(start, 16);
    var health := Run(start, Oks(n));
    PlaceOf(health);
    var failed := Apply(health, Outcome(false));
    StepKeepsInv(health, Outcome(false));
    HealthFails(health);
    EmptyIsAccounted();
    EmptyIsMatched();
    RunKeepsMatched(EMPTY, live);
    LosesFrom(failed, s, config.handoff.value, b);
    var m := UndoCompletes(failed);
    var steps := [Deploy(c, config)] + (Oks(n) + ([Outcome(false)] + Oks(m)));
    events := live + steps;
    RunAppend(EMPTY, live, steps);
    RunOne(s, Deploy(c, config), Oks(n) + ([Outcome(false)] + Oks(m)));
    RunAppend(start, Oks(n), [Outcome(false)] + Oks(m));
    RunOne(health, Outcome(false), Oks(m));
    FailedDeployUses(c, config, n, m);
    UsesAppend(live, steps, config);
  }

  lemma FailedDeployUses(c: Id, config: Config, n: nat, m: nat)
    ensures Uses([Deploy(c, config)] + (Oks(n) + ([Outcome(false)] + Oks(m))), config)
  {
  }

  lemma FreshThird(w: World, h: Handoff, a: Id, b: Id, c: Id)
    requires SecondUnknown(w, h, a, b) && c != a && c != b
    ensures Fresh(w, c)
  {
    var k := IndexOf(w.deployments, c);
    assert k != 0 && k != 1;
  }

  lemma HealthFails(s: State)
    requires s.job.Deploying? && s.job.pc.Health?
    ensures var t := Apply(s, Outcome(false));
      && t.job == s.job.(local := t.job.local, pc := Undo(UndoActivation, HealthCheck, false))
  {
  }

  lemma LosesFrom(failed: State, s: State, h: Handoff, b: Id)
    requires failed.job.Deploying? && failed.job.origin == s.world && failed.job.node.None?
    requires failed.job.config.handoff == Some(h) && h.Valid()
    requires s.job.Idle? && MatchedState(s)
    requires s.world.current == Some(ReleaseDir(b)) && ReleaseDir(b) in s.world.directories
    requires s.world.running == map[WebUnit(b) := h.secondary] && s.world.upstream == Some(h.secondary)
    ensures LosesUpstream(failed)
  {
    hide Matched;
  }

  // ----- what a live release without its record leads to -----

  /**
   Deploys only, one of them demoted: the target of a rollback is on the live release's port.  The run is
   deploy a, deploy b, whose record is overwritten after it has completed, deploy c.
   */
  lemma SharedTargetPortHappens(config: Config, a: Id, b: Id, c: Id) returns (events: seq<Event>)
    requires config.handoff.Some? && config.handoff.value.Valid() && config.retention >= 3
    requires a != b && c != a && c != b
    ensures Fixed(events, config.handoff.value) && NoDeployAfterRollback(events)
    ensures var t := Run(EMPTY, events); var target, live := RollbackTarget(t.world), PreviousNode(t.world);
      && t.job.Idle? && target.Some? && live.Some? && target.value.id == a && live.value.id == c
      && target.value.port.Some? && target.value.port == live.value.port
  {
    hide Inv, Run, Fresh, RollbackTarget, PreviousNode, UnitsHandedOver;
    var h := config.handoff.value;
    var unknown := LiveRecordOverwritten(config, a, b);
    var s := Run(EMPTY, unknown);
    FreshThird(s.world, h, a, b, c);
    var third := DeployOk(s, c, config);
    events := unknown + third;
    RunAppend(EMPTY, unknown, third);
    DeploysOnlyAppend(unknown, third, config);
    var w := Run(s, third).world;
    RecordsNow(Run(s, third));
    assert |CompletedOf(w.deployments)| <= 3 by { ShortHistory(w.deployments); }
    assert w.deployments[..2][0] == w.deployments[0] && w.deployments[..2][1] == w.deployments[1];
    RollbackGoesTo(w, 2, 0);
    LiveAt(w, 2);
  }

  /**
   The deploy of b starts its unit on the port of the live unit: deploy a, whose record is overwritten after it
   has completed, then deploy b up to the start of its unit.
   */
  lemma SamePortStarts(config: Config, a: Id, b: Id) returns (events: seq<Event>)
    requires config.handoff.Some? && config.handoff.value.Valid() && config.retention >= 2 && a != b
    ensures Fixed(events, config.handoff.value) && NoDeployAfterRollback(events)
    ensures var s := Run(EMPTY, events);
      && StartsUnit(s) && s.job.local.id == b && s.world.current == Some(ReleaseDir(a)) && WebUnit(a) in s.world.running
      && DeployStep(s, true).job.local.port == Some(s.world.running[WebUnit(a)])
  {
    hide Inv, Run, Undisturbed, PreviousNode, Fresh, Rank, DeployedFrom, UnitsHandedOver;
    EmptyIsAccounted();
    assert Fresh(EMPTY.world, a) by { EmptyIsFresh(a); }
    var first := ReadDeployOk(EMPTY, a, config);
    var s := Run(EMPTY, first);
    FirstOf(s.world, config, a);
    var end := [CancelMark(0), CancelWrite(0)];
    OverwriteLive(s, a);
    var u := Run(s, end);
    FreshSecond(u.world, a, b);
    StepKeepsInv(u, Deploy(b, config));
    StartIsUndisturbed(u, b, config);
    var start := Apply(u, Deploy(b, config));
    PlaceOf(start);
    var n := PlaceIsReached(start, 10);
    var t := Run(start, Oks(n));
    StartsOnPrimary(t);
    var second := [Deploy(b, config)] + Oks(n);
    RunOne(u, Deploy(b, config), Oks(n));
    RunAppend(EMPTY, first, end);
    RunAppend(EMPTY, first + end, second);
    events := first + end + second;
    DeploysOnlyAppend(first, end, config);
    DeploysOnlyAppend(first + end, second, config);
  }

  lemma FreshSecond(w: World, a: Id, b: Id)
    requires |w.deployments| == 1 && w.deployments[0].id == a && w.directories == {ReleaseDir(a)} && a != b
    requires w.current == Some(ReleaseDir(a)) && forall u :: u in w.running ==> u == WebUnit(a)
    ensures Fresh(w, b)
  {
    var k := IndexOf(w.deployments, b);
    assert k != 0;
  }

  lemma StartsOnPrimary(s: State)
    requires Undisturbed(s) && s.job.config.handoff.Some? && Rank(s.job.pc) == 10 && s.job.node.None?
    ensures StartsUnit(s) && DeployStep(s, true).job.local.port == Some(s.job.config.handoff.value.primary)
    ensures s.world.current == s.job.origin.current && s.world.running == s.job.origin.running
  {
    PlaceOf(s);
    BeforeStart(s);
    hide Inv, Rank, PreviousNode;
  }

  /**
   Downtime after a rollback: deploy a, deploy b, whose record is overwritten after it has completed, then a
   rollback whose check after the switch fails; nginx stays on the port of a, whose unit was stopped again.
   */
  lemma RollbackDowntimeHappens(config: Config, a: Id, b: Id, r: Id) returns (events: seq<Event>)
    requires config.handoff.Some? && config.handoff.value.Valid() && config.retention >= 2
    requires a != b && r != a && r != b
    ensures Uses(events, config)
    ensures var t := Run(EMPTY, events);
      && t.job.Idle? && t.world.current == Some(ReleaseDir(b)) && WebUnit(b) in t.world.running
      && !UpstreamServed(t.world)
  {
    hide Run, SecondUnknown, Inv;
    var unknown := LiveRecordOverwritten(config, a, b);
    var s := Run(EMPTY, unknown);
    RollbackToFirst(s, config.handoff.value, a, b, r);
    var start := Apply(s, Rollback(r));
    var steps := [Rollback(r)] + (Oks(4) + ([Outcome(false)] + Oks(3)));
    RunAppend(EMPTY, unknown, steps);
    RunOne(s, Rollback(r), Oks(4) + ([Outcome(false)] + Oks(3)));
    RunAppend(start, Oks(4), [Outcome(false)] + Oks(3));
    RunOne(Run(start, Oks(4)), Outcome(false), Oks(3));
    SwitchedToTarget(start);
    SwitchedBack(Run(start, Oks(4)));
    PortLost(s.world, config.handoff.value, a, b);
    events := unknown + steps;
    NoDeployUses(steps, config);
    UsesAppend(unknown, steps, config);
  }

  lemma RollbackToFirst(s: State, h: Handoff, a: Id, b: Id, r: Id)
    requires Resting(s) && SecondUnknown(s.world, h, a, b) && a != b && r != a && r != b
    ensures Apply(s, Rollback(r)) ==
      s.(job := RollingBack(s.world, Some(ReleaseDir(b)), r, s.world.deployments[0], None, StartTarget))
    ensures IsNodeRecord(s.world.deployments[0], a, h.primary)
  {
    hide Inv, RollbackTarget, ActiveNode, PreviousNode;
    NewestFrom(s.world.deployments, Candidates(s.world), 0);
    assert RollbackTarget(s.world) == Some(s.world.deployments[0]) by { TargetIsNewest(s.world); }
    if ActiveNode(s.world).Some? { ActiveIsPrevious(s.world); }
    var k := IndexOf(s.world.deployments, r);
    assert k != 0 && k != 1;
  }

  lemma TargetIsNewest(w: World)
    ensures RollbackTarget(w) == Newest(w.deployments, Candidates(w))
  {
  }

  /** The first four steps of a rollback of Node releases, all successful. */
  lemma SwitchedToTarget(s: State)
    requires s.job.RollingBack? && s.job.rpc.StartTarget? && IsNode(s.job.target)
    ensures var t, target := Run(s, Oks(4)), s.job.target;
      t == State(s.world.(running := s.world.running[target.unit.value := target.port.value],
        current := Some(target.release), upstream := target.port), s.job.(rpc := HealthTarget), s.requests)
  {
    hide DeployStep, CancelStep;
    OksSplit(s, 4);
    var s1 := Apply(s, Outcome(true));
    OksSplit(s1, 3);
    var s2 := Apply(s1, Outcome(true));
    OksSplit(s2, 2);
    var s3 := Apply(s2, Outcome(true));
    OksSplit(s3, 1);
    assert Oks(0) == [];
  }

  /** The check fails; with no live record known, nginx is not reset. */
  lemma SwitchedBack(s: State)
    requires s.job.RollingBack? && s.job.rpc.HealthTarget? && s.job.target.unit.Some?
    requires s.job.live.None? && s.job.before.Some?
    ensures var t := Run(Apply(s, Outcome(false)), Oks(3));
      t == State(s.world.(current := s.job.before, running := s.world.running - {s.job.target.unit.value}), Idle,
        s.requests)
  {
    hide DeployStep, CancelStep;
    var s1 := Apply(s, Outcome(false));
    OksSplit(s1, 3);
    var s2 := Apply(s1, Outcome(true));
    OksSplit(s2, 2);
    var s3 := Apply(s2, Outcome(true));
    OksSplit(s3, 1);
    assert Oks(0) == [];
  }

  lemma PortLost(w: World, h: Handoff, a: Id, b: Id)
    requires SecondUnknown(w, h, a, b) && h.Valid() && a != b
    ensures var running := w.running[WebUnit(a) := h.primary] - {WebUnit(a)};
      WebUnit(b) in running && forall u :: u in running ==> running[u] != h.primary
    ensures w.current == Some(ReleaseDir(b))
  {
  }

  // ----- a cancellation between the commands of `post_deploy` -----

  lemma {:induction false} GuardIsReached(s: State) returns (n: nat)
    requires Undisturbed(s) && s.job.config.postDeploy > 0
    requires BeforePostDeploy(s.job.pc) || (s.job.pc.Guard? && s.job.pc.stage.PostDeploy?)
    ensures var t := Run(s, Oks(n));
      && Inv(t) && t.job.Deploying? && t.job.pc.Guard? && t.job.pc.stage.PostDeploy?
      && t.job == s.job.(local := t.job.local, pc := t.job.pc) && t.job.local.id == s.job.local.id
      && t.requests == s.requests && t.world.markers == s.world.markers
    decreases StepsLeft(s.job)
  {
    hide StepsLeft, Apply, Inv;
    if s.job.pc.Guard? && s.job.pc.stage.PostDeploy? {
      n := 0;
    } else {
      OkStep(s);
      Advances(s);
      var t := Apply(s, Outcome(true));
      var m := GuardIsReached(t);
      n := m + 1;
      assert Oks(n) == [Outcome(true)] + Oks(m);
      RunOne(s, Outcome(true), Oks(m));
    }
  }

  /** The marker is written and then seen. */
  lemma MarkerSeen(s: State)
    requires s.job.Deploying? && s.job.pc.Guard? && s.job.pc.stage.PostDeploy?
    requires 0 in s.requests && s.requests[0].snapshot.id == s.job.local.id && s.requests[0].snapshot.status == Started
    ensures var u := Apply(s, CancelMark(0)); var t := Apply(u, Outcome(true));
      && Run(s, [CancelMark(0), Outcome(true)]) == t
      && u.job == s.job && u.world == s.world.(markers := s.world.markers + {s.job.local.id})
      && t == DeployStep(u, true) && s.job.local.id in t.world.markers
      && t.job == s.job.(local := t.job.local, pc := Undo(UndoActivation, PostDeployCommands, false))
      && t.job.local.id == s.job.local.id
  {
    RunTwo(s, CancelMark(0), Outcome(true));
    hide Upsert, DeployStep, CancelStep;
  }

  /**
   A first deploy that is cancelled between the commands of `post_deploy`: its marker is there, and yet its
   record ends as Failed, with the phase of those commands running.
   */
  lemma CancelledInPostDeploy(id: Id, config: Config) returns (events: seq<Event>)
    requires config.postDeploy > 0 && (config.handoff.Some? ==> config.handoff.value.Valid())
    ensures var t := Run(EMPTY, events); var stored := Find(t.world.deployments, id);
      && t.job.Idle? && id in t.world.markers
      && stored.Some? && stored.value.status == Failed && !Closed(stored.value.phases)
  {
    hide Inv, Run, Apply, Undisturbed, Fresh, Closed, Find, Logged, LoggedJob, LosesUpstream;
    EmptyIsAccounted();
    assert Fresh(EMPTY.world, id) by { EmptyIsFresh(id); }
    LateWriteStart(EMPTY, id, config);
    var begin := [Deploy(id, config), CancelRead(0, id)];
    var start := Run(EMPTY, begin);
    var n := GuardIsReached(start);
    var s := Run(start, Oks(n));
    RunAppend(EMPTY, begin, Oks(n));
    MarkerSeen(s);
    var marked := Apply(s, CancelMark(0));
    var failed := Apply(marked, Outcome(true));
    StepKeepsInv(s, CancelMark(0));
    StepKeepsInv(marked, Outcome(true));
    var seen := [CancelMark(0), Outcome(true)];
    RunAppend(EMPTY, begin + Oks(n), seen);
    EmptyIsLogged();
    RunKeepsLog(EMPTY, begin + Oks(n));
    StepKeepsLog(s, CancelMark(0));
    assert LoggedJob(marked.job) by { LoggedNow(marked); }
    StageFailureOpensPhase(marked, true);
    SameStage(marked);
    var m := UndoCompletes(failed);
    RunAppend(EMPTY, begin + Oks(n) + seen, Oks(m));
    events := begin + Oks(n) + seen + Oks(m);
  }

  lemma EmptyIsFresh(id: Id)
    ensures Fresh(EMPTY.world, id)
  {
  }

  lemma EmptyIsLogged()
    ensures Logged(EMPTY)
  {
  }

  lemma LoggedNow(s: State)
    requires Logged(s) && s.job.Deploying? && OnMainLine(s.job.pc)
    ensures LoggedJob(s.job)
  {
    hide LoggedJob;
  }

  lemma SameStage(s: State)
    requires s.job.Deploying? && s.job.pc.Guard?
    ensures DeployStep(s, true) == StageStep(s, true)
  {
    hide StageStep;
  }
}
