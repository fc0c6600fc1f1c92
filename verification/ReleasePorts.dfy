/** Blue-green ports: when two releases that must run side by side have different ports. */
module ReleasePorts {
  import opened Results
  import opened Releases
  import opened ReleaseInvariant
  import opened ReleaseHistory
  import opened ReleaseSafety
  import opened ReleaseCompletions
  import opened ReleaseProgress
  import opened ReleaseServing
  import opened ReleaseRetention

  // ----- the port of a new unit -----

  /** What the world is like when a deploy is about to start its unit. */
  lemma BeforeStart(s: State)
    requires Inv(s) && s.job.Deploying? && s.job.pc.StartUnit?
    ensures var origin, n := s.job.origin, |s.job.origin.deployments|;
      && s.world.current == origin.current && s.world.running == origin.running && s.job.node == PreviousNode(origin)
      && Records(origin.deployments)
      && |s.world.deployments| == n + 1 && s.world.deployments[n].status != Completed
      && Related(origin.deployments, s.world.deployments[..n])
  {
    hide PreviousNode, Related;
  }

  /** The lookup made when a deploy began still names the live release until the deploy activates its own. */
  lemma LiveNodeUnchanged(s: State, r: Deployment)
    requires Inv(s) && s.job.Deploying? && s.job.pc.StartUnit?
    requires PreviousNode(s.world) == Some(r)
    ensures s.job.node == Some(r)
  {
    BeforeStart(s);
    hide Inv;
    var origin, n := s.job.origin, |s.job.origin.deployments|;
    LiveNodeInHistory(s.world);
    var i :| 0 <= i < n + 1 && s.world.deployments[i] == r;
    assert s.world.deployments[..n][i] == r;
    assert origin.deployments[i] == r && r in origin.deployments;
    LiveNodeIs(origin, r);
  }

  /** This successful step starts the unit of a deploy. */
  ghost predicate StartsUnit(s: State) {
    && s.job.Deploying? && s.job.pc.StartUnit?
    && DeployStep(s, true).job.Deploying? && DeployStep(s, true).job.pc.Register?
  }

  /** In every reachable state, rollbacks included, a deploy starts its unit on another port than the live release's. */
  lemma DeployStartsOnOtherPort(events: seq<Event>, r: Deployment)
    requires var s := Run(EMPTY, events); StartsUnit(s) && PreviousNode(s.world) == Some(r)
    ensures var t := DeployStep(Run(EMPTY, events), true);
      t.job.local.port.Some? && t.job.local.port != r.port
  {
    hide Inv, PreviousNode;
    EmptyDisk();
    RunKeepsInv(EMPTY, events);
    LiveNodeUnchanged(Run(EMPTY, events), r);
  }

  /**
   Whatever became of the live release's record, the new unit gets another port than the one the live unit
   runs on if and only if the deploy found the record Completed, or the live unit is not on the primary port.
   */
  lemma DeployPortExactly(events: seq<Event>)
    requires var s := Run(EMPTY, events);
      StartsUnit(s) && s.world.current.Some? && WebUnit(s.world.current.value.id) in s.world.running
    ensures var s := Run(EMPTY, events);
      var live := s.world.running[WebUnit(s.world.current.value.id)];
      DeployStep(s, true).job.local.port != Some(live) <==>
        s.job.node.Some? || live != s.job.config.handoff.value.primary
  {
    hide Inv, PreviousNode;
    var s := Run(EMPTY, events);
    EmptyDisk();
    EmptyIsMatched();
    RunKeepsInv(EMPTY, events);
    RunKeepsMatched(EMPTY, events);
    BeforeStart(s);
    if s.job.node.Some? {
      LiveRecord(s.job.origin);
      var r := s.job.node.value;
      var i :| 0 <= i < |s.job.origin.deployments| && s.job.origin.deployments[i] == r;
      assert OnRecordedPort(s.job.origin.deployments[i], s.job.origin.running);
    }
  }

  /**
   When a deploy ends Completed, the two newest Completed releases have one port if and only if the release
   before it is on the secondary port exactly when the live release that the deploy found was on the primary.
   */
  lemma NewestTwoShareAPort(s: State, ok: bool)
    requires Inv(s) && s.job.Deploying? && s.job.pc.Prune? && s.job.config.handoff.Some? && LastCompleted(s.world)
    requires |History(s.world)| >= 2
    requires var h, cs := s.job.config.handoff.value, History(s.world);
      cs[|cs| - 2].port == Some(h.primary) || cs[|cs| - 2].port == Some(h.secondary)
    ensures var h, cs := s.job.config.handoff.value, History(DeployStep(s, ok).world); var n := |cs|;
      && n >= 2 && cs[n - 1].id == s.job.local.id
      && (cs[n - 1].port == cs[n - 2].port <==>
            (cs[n - 2].port == Some(h.secondary) <==> PortOf(PreviousNode(s.job.origin)) == Some(h.primary)))
  {
    hide PreviousNode, DeployStep, Expired, CompletedOf, ChoosePort;
    PruneEndsDeploy(s, ok);
    PruneFacts(s);
    HistoryOfLast(s.world.deployments);
    assert s.job.config.handoff.value.Valid() by { PruneHandoff(s); }
    hide Inv;
    ChosenPort(s.job.config.handoff.value, PortOf(PreviousNode(s.job.origin)));
  }

  lemma PruneHandoff(s: State)
    requires Inv(s) && s.job.Deploying? && s.job.pc.Prune? && s.job.config.handoff.Some?
    ensures s.job.config.handoff.value.Valid()
  {
    hide PreviousNode, Listed, Expired;
  }

  lemma ChosenPort(h: Handoff, previous: Option<Port>)
    ensures ChoosePort(h, previous) == if previous == Some(h.primary) then h.secondary else h.primary
  {
  }

  // ----- one fixed handoff -----

  /** Every deploy of the run uses `handoff`. */
  predicate Fixed(events: seq<Event>, handoff: Handoff) {
    forall i :: 0 <= i < |events| && events[i].Deploy? ==> events[i].config.handoff == Some(handoff)
  }

  predicate NoDeployAfterRollback(events: seq<Event>) {
    forall i, j :: 0 <= i < j < |events| && events[i].Rollback? ==> !events[j].Deploy?
  }

  predicate Rolled(events: seq<Event>) {
    exists i :: 0 <= i < |events| && events[i].Rollback?
  }

  /** What each completed deploy of the run had found as the live Node release. */
  function Lookups(s: State, events: seq<Event>): seq<Option<Deployment>>
    decreases |events|
  {
    if events == [] then []
    else
      var front := events[..|events| - 1];
      Lookups(s, front) + Lookup(Run(s, front), events[|events| - 1])
  }

  function Lookup(s: State, e: Event): seq<Option<Deployment>> {
    if e.Outcome? && s.job.Deploying? && s.job.pc.Drained? then [s.job.node] else []
  }

  /** What a deploy finds: the completion before its own, unless the record of that one was overwritten. */
  predicate Finds(cs: seq<Deployment>, gone: set<Id>, node: Option<Deployment>) {
    if cs == [] then node.None?
    else if node.Some? then node.value == cs[|cs| - 1]
    else cs[|cs| - 1].id in gone
  }

  predicate Chosen(cs: seq<Deployment>, ls: seq<Option<Deployment>>, gone: set<Id>, h: Handoff, k: nat)
    requires k < |cs| == |ls|
  {
    && cs[k].unit.Some? && cs[k].port == Some(ChoosePort(h, PortOf(ls[k])))
    && Finds(cs[..k], gone, ls[k])
  }

  predicate PortsChosen(cs: seq<Deployment>, ls: seq<Option<Deployment>>, gone: set<Id>, h: Handoff) {
    |cs| == |ls| && (cs != [] ==> h.Valid()) && forall k :: 0 <= k < |cs| ==> Chosen(cs, ls, gone, h, k)
  }

  // ----- ports along the completions -----

  lemma FirstPort(cs: seq<Deployment>, ls: seq<Option<Deployment>>, gone: set<Id>, h: Handoff, k: nat)
    requires PortsChosen(cs, ls, gone, h) && k < |cs|
    ensures cs[k].port == Some(h.primary) || cs[k].port == Some(h.secondary)
  {
    assert Chosen(cs, ls, gone, h, k);
  }

  /**
   Two completions have different ports if and only if the newer one's deploy, when it began, found a live
   release on the primary port just when the older one is on the primary port.
   */
  lemma PortsDiffer(cs: seq<Deployment>, ls: seq<Option<Deployment>>, gone: set<Id>, h: Handoff, older: nat, newer: nat)
    requires PortsChosen(cs, ls, gone, h) && older < newer < |cs|
    ensures cs[older].port != cs[newer].port <==>
      (cs[older].port == Some(h.primary) <==> PortOf(ls[newer]) == Some(h.primary))
  {
    FirstPort(cs, ls, gone, h, older);
    assert Chosen(cs, ls, gone, h, newer);
  }

  // ----- which completion is live -----

  /** The last completion is live and on disk. */
  predicate LastLive(w: World, cs: seq<Deployment>) {
    cs != [] ==> w.current == Some(cs[|cs| - 1].release) && cs[|cs| - 1].release in w.directories
  }

  /** At most one completion newer than this release has a record that was not overwritten. */
  predicate NearNewest(live: Option<Release>, cs: seq<Deployment>, gone: set<Id>) {
    forall j, a, b :: 0 <= j < a < b < |cs| && live == Some(cs[j].release) ==> cs[a].id in gone || cs[b].id in gone
  }

  ghost predicate LiveAmong(live: Option<Release>, cs: seq<Deployment>) {
    cs != [] ==> live.Some? && live.value in ReleasesOf(cs)
  }

  ghost predicate Tale(s: State, cs: seq<Deployment>, ls: seq<Option<Deployment>>, gone: set<Id>, h: Handoff,
      rolled: bool) {
    && PortsChosen(cs, ls, gone, h)
    && match s.job
       case Idle =>
         && NearNewest(s.world.current, cs, gone) && LiveAmong(s.world.current, cs)
         && (!rolled ==> LastLive(s.world, cs))
       case RollingBack(origin, _, _, target, _, _) =>
         && rolled
         && NearNewest(origin.current, cs, gone) && LiveAmong(origin.current, cs)
         && NearNewest(Some(target.release), cs, gone) && LiveAmong(Some(target.release), cs)
       case Deploying(origin, config, d, node, pc) =>
         && config.handoff == Some(h)
         && if pc.Prune? then cs != [] && cs[|cs| - 1].release == d.release
            else LastLive(origin, cs) && Finds(cs, gone, node)
  }

  lemma LastIsNear(w: World, cs: seq<Deployment>, gone: set<Id>)
    requires LastLive(w, cs) && DistinctReleases(cs)
    ensures NearNewest(w.current, cs, gone) && LiveAmong(w.current, cs)
  {
  }

  predicate DistinctReleases(cs: seq<Deployment>) {
    forall i, j :: 0 <= i < j < |cs| ==> cs[i].release != cs[j].release
  }

  lemma AccountedReleases(s: State, cs: seq<Deployment>, gone: set<Id>)
    requires Accounted(s, cs, gone)
    ensures DistinctReleases(cs)
    ensures s.job.Idle? ==> History(s.world) == Standing(cs, gone)
  {
    hide CompletedOf, Standing, Final;
    forall i, j | 0 <= i < j < |cs|
      ensures cs[i].release != cs[j].release
    {
      assert cs[i] in cs && cs[j] in cs;
      assert Proper(cs[i]) && Proper(cs[j]);
    }
  }

  // ----- demotions -----

  lemma ChosenMonotone(cs: seq<Deployment>, ls: seq<Option<Deployment>>, gone: set<Id>, more: set<Id>, h: Handoff)
    requires PortsChosen(cs, ls, gone, h)
    ensures PortsChosen(cs, ls, gone + more, h)
  {
    forall k | 0 <= k < |cs|
      ensures Chosen(cs, ls, gone + more, h, k)
    {
      assert Chosen(cs, ls, gone, h, k);
    }
  }

  lemma DemotionKeepsTale(s: State, e: Event, cs: seq<Deployment>, ls: seq<Option<Deployment>>, gone: set<Id>,
      h: Handoff, rolled: bool)
    requires Tale(s, cs, ls, gone, h, rolled) && (e.CancelRead? || e.CancelMark? || e.CancelWrite?)
    ensures Tale(CancelStep(s, e), cs, ls, gone + Demotion(s, e), h, rolled)
  {
    hide CancelStep, PortsChosen, Demotion;
    CancelEffect(s, e);
    ChosenMonotone(cs, ls, gone, Demotion(s, e), h);
  }

  // ----- deploys -----

  /** A deploy that starts with the last completion live finds it, unless its record was overwritten. */
  lemma StartFinds(s: State, cs: seq<Deployment>, ls: seq<Option<Deployment>>, gone: set<Id>, h: Handoff)
    requires Accounted(s, cs, gone) && s.job.Idle? && Records(s.world.deployments)
    requires PortsChosen(cs, ls, gone, h) && LastLive(s.world, cs)
    ensures Finds(cs, gone, PreviousNode(s.world))
  {
    hide CompletedOf, Standing, Final, Newest;
    var w, node := s.world, PreviousNode(s.world);
    AccountedReleases(s, cs, gone);
    StandingMembers(cs, gone);
    LiveNodeInHistory(w);
    if node.Some? {
      var k :| 0 <= k < |cs| && cs[k] == node.value;
    } else if cs != [] && cs[|cs| - 1].id !in gone {
      var last := cs[|cs| - 1];
      assert last in History(w) && Chosen(cs, ls, gone, h, |cs| - 1);
      LiveNodeIs(w, last);
    }
  }

  lemma DeployStartsTale(
    s: State, id: Id, config: Config, cs: seq<Deployment>, ls: seq<Option<Deployment>>, gone: set<Id>, h: Handoff)
    requires Inv(s) && Accounted(s, cs, gone) && Tale(s, cs, ls, gone, h, false)
    requires s.job.Idle? && Fresh(s.world, id) && config.handoff == Some(h)
    ensures Tale(Apply(s, Deploy(id, config)), cs, ls, gone, h, false)
  {
    hide Shaped, PortsChosen, PreviousNode, Accounted, LastLive, Finds, Upsert;
    StartFinds(s, cs, ls, gone, h);
  }

  lemma CompletionTale(s: State, ok: bool, cs: seq<Deployment>, ls: seq<Option<Deployment>>, gone: set<Id>,
      h: Handoff, rolled: bool)
    requires Inv(s) && s.job.Deploying? && s.job.pc.Drained? && Tale(s, cs, ls, gone, h, rolled)
    ensures Tale(DeployStep(s, ok), cs + [s.job.local], ls + [s.job.node], gone, h, rolled)
  {
    hide DeployStep, RecordWritten;
    OwnNode(s);
    DrainedFacts(s);
    WhenWritten(s, ok);
    DeployJob(s, ok);
    hide Inv, Finds, ChoosePort;
    var more, looks := cs + [s.job.local], ls + [s.job.node];
    forall k | 0 <= k < |more|
      ensures Chosen(more, looks, gone, h, k)
    {
      if k < |cs| {
        assert Chosen(cs, ls, gone, h, k) && more[..k] == cs[..k];
      } else {
        assert more[..k] == cs;
      }
    }
  }

  lemma DrainedFacts(s: State)
    requires Inv(s) && s.job.Deploying? && s.job.pc.Drained?
    ensures OwnRecord(s.job)
    ensures s.job.config.handoff.Some? ==>
      var h := s.job.config.handoff.value;
      h.Valid() && s.job.local.unit.Some? && s.job.local.port == Some(ChoosePort(h, PortOf(s.job.node)))
  {
    hide PreviousNode, Listed, Activated, ChoosePort;
  }

  lemma DeployEndsTale(s: State, ok: bool, cs: seq<Deployment>, ls: seq<Option<Deployment>>, gone: set<Id>,
      h: Handoff, rolled: bool)
    requires Inv(s) && Accounted(s, cs, gone) && s.job.Deploying? && Tale(s, cs, ls, gone, h, rolled)
    requires DeployStep(s, ok).job.Idle?
    ensures Tale(DeployStep(s, ok), cs, ls, gone, h, rolled)
  {
    hide Inv, Accounted, DeployStep, PortsChosen, Finds, NearNewest, LiveAmong;
    DeployJob(s, ok);
    if s.job.pc.Prune? { PruneEndsDeploy(s, ok); } else { FailureEnds(s, ok); }
    AccountedReleases(s, cs, gone);
    LastIsNear(DeployStep(s, ok).world, cs, gone);
  }

  lemma DeployStepTale(s: State, ok: bool, cs: seq<Deployment>, ls: seq<Option<Deployment>>, gone: set<Id>,
      h: Handoff, rolled: bool)
    requires Inv(s) && Accounted(s, cs, gone) && s.job.Deploying? && Tale(s, cs, ls, gone, h, rolled)
    ensures Tale(DeployStep(s, ok), cs + Completion(s, Outcome(ok)), ls + Lookup(s, Outcome(ok)), gone, h, rolled)
  {
    hide Inv, Accounted, Tale, DeployStep, RecordWritten;
    if s.job.pc.Drained? {
      CompletionTale(s, ok, cs, ls, gone, h, rolled);
    } else {
      assert cs + [] == cs && ls + [] == ls;
      if DeployStep(s, ok).job.Idle? {
        DeployEndsTale(s, ok, cs, ls, gone, h, rolled);
      } else {
        DeployGoesOn(s, ok, cs, ls, gone, h, rolled);
      }
    }
  }

  lemma DeployGoesOn(s: State, ok: bool, cs: seq<Deployment>, ls: seq<Option<Deployment>>, gone: set<Id>, h: Handoff,
      rolled: bool)
    requires Inv(s) && s.job.Deploying? && !s.job.pc.Drained? && Tale(s, cs, ls, gone, h, rolled)
    requires !DeployStep(s, ok).job.Idle?
    ensures Tale(DeployStep(s, ok), cs, ls, gone, h, rolled)
  {
    hide DeployStep, PortsChosen, RecordWritten, Finds, LastLive;
    OwnNode(s);
    assert OwnRecord(s.job);
    hide Inv;
    WhenWritten(s, ok);
    DeployJob(s, ok);
    if s.job.pc.Prune? { PruneEndsIdle(s, ok); }
  }

  lemma PruneEndsIdle(s: State, ok: bool)
    requires s.job.Deploying? && s.job.pc.Prune?
    ensures DeployStep(s, ok).job.Idle?
  {
  }

  // ----- rollbacks -----

  /** Places of two standing records among the standing ones. */
  lemma {:induction false} StandingPlaces(cs: seq<Deployment>, gone: set<Id>, i: nat, k: nat) returns (a: nat, b: nat)
    requires i < k < |cs| && cs[i].id !in gone && cs[k].id !in gone
    ensures a < b < |Standing(cs, gone)| && Standing(cs, gone)[a] == cs[i] && Standing(cs, gone)[b] == cs[k]
    decreases |cs|
  {
    var front := cs[..|cs| - 1];
    if k == |cs| - 1 {
      StandingMembers(front, gone);
      assert front[i] in front;
      a :| 0 <= a < |Standing(front, gone)| && Standing(front, gone)[a] == cs[i];
      b := |Standing(front, gone)|;
    } else {
      a, b := StandingPlaces(front, gone, i, k);
    }
  }

  /** What a rollback chooses among the completions: every newer one is demoted or live. */
  lemma TargetAmong(s: State, cs: seq<Deployment>, gone: set<Id>) returns (i: nat)
    requires Accounted(s, cs, gone) && s.job.Idle? && Records(s.world.deployments) && NewestOnDisk(s.world)
    requires RollbackTarget(s.world).Some?
    ensures i < |cs| && RollbackTarget(s.world) == Some(cs[i]) && cs[i].id !in gone
    ensures s.world.current != Some(cs[i].release)
    ensures forall k :: i < k < |cs| && cs[k].id !in gone ==> s.world.current == Some(cs[k].release)
  {
    hide CompletedOf, Standing, Final, NewestOnDisk, RollbackTarget, Newest;
    var w := s.world;
    AccountedReleases(s, cs, gone);
    StandingMembers(cs, gone);
    HistoryDistinct(w.deployments);
    var t := TargetAt(w);
    assert History(w)[t] in History(w);
    i :| 0 <= i < |cs| && cs[i] == History(w)[t];
    forall k | i < k < |cs| && cs[k].id !in gone
      ensures w.current == Some(cs[k].release)
    {
      var a, b := StandingPlaces(cs, gone, i, k);
      assert a == t;
      NewestInHistoryOnDisk(w, t, b);
      NewerIsLive(w, t, b);
    }
  }

  lemma RollbackStartsTale(s: State, id: Id, cs: seq<Deployment>, ls: seq<Option<Deployment>>, gone: set<Id>,
      h: Handoff, rolled: bool)
    requires Inv(s) && Accounted(s, cs, gone) && DiskState(s) && Tale(s, cs, ls, gone, h, rolled)
    ensures Tale(Apply(s, Rollback(id)), cs, ls, gone, h, true)
  {
    hide Inv, Accounted, DiskState, PortsChosen, RollbackTarget, ActiveNode, NearNewest, LiveAmong, Has;
    if s.job.Idle? && RollbackTarget(s.world).Some? { TargetIsNear(s, cs, gone); }
  }

  lemma TargetIsNear(s: State, cs: seq<Deployment>, gone: set<Id>)
    requires Inv(s) && Accounted(s, cs, gone) && DiskState(s) && s.job.Idle? && RollbackTarget(s.world).Some?
    ensures var target := RollbackTarget(s.world).value;
      NearNewest(Some(target.release), cs, gone) && LiveAmong(Some(target.release), cs)
  {
    hide NewestOnDisk, RollbackTarget, Shaped;
    var i := TargetAmong(s, cs, gone);
    AccountedReleases(s, cs, gone);
    hide Accounted, Inv;
    assert cs[i] in cs;
  }

  lemma RollbackStepTale(s: State, ok: bool, cs: seq<Deployment>, ls: seq<Option<Deployment>>, gone: set<Id>,
      h: Handoff, rolled: bool)
    requires Inv(s) && s.job.RollingBack? && Tale(s, cs, ls, gone, h, rolled)
    ensures Tale(RollbackStep(s, ok), cs, ls, gone, h, rolled)
  {
    hide Inv, RollbackStep, PortsChosen, NearNewest, LiveAmong;
    RollbackWrites(s, ok);
    if RollbackStep(s, ok).job.Idle? { RollbackEnds(s, ok); }
  }

  // ----- whole runs -----

  lemma StepTale(s: State, e: Event, cs: seq<Deployment>, ls: seq<Option<Deployment>>, gone: set<Id>, h: Handoff,
      rolled: bool)
    requires Inv(s) && Accounted(s, cs, gone) && DiskState(s) && Tale(s, cs, ls, gone, h, rolled)
    requires e.Deploy? ==> !rolled && e.config.handoff == Some(h)
    ensures Tale(Apply(s, e), cs + Completion(s, e), ls + Lookup(s, e), gone + Demotion(s, e), h, rolled || e.Rollback?)
  {
    hide Inv, Accounted, DiskState, Tale, DeployStep, RollbackStep, CancelStep, Fresh, Demotion;
    assert cs + [] == cs && ls + [] == ls && gone + {} == gone;
    NoDemotion(s, e);
    match e
    case Deploy(id, config) =>
      if s.job.Idle? && Fresh(s.world, id) { DeployStartsTale(s, id, config, cs, ls, gone, h); }
    case Rollback(id) => RollbackStartsTale(s, id, cs, ls, gone, h, rolled);
    case Outcome(ok) =>
      if s.job.Deploying? {
        DeployStepTale(s, ok, cs, ls, gone, h, rolled);
      } else if s.job.RollingBack? {
        RollbackStepTale(s, ok, cs, ls, gone, h, rolled);
      }
    case _ => DemotionKeepsTale(s, e, cs, ls, gone, h, rolled);
  }

  lemma NoDemotion(s: State, e: Event)
    ensures !e.CancelWrite? ==> Demotion(s, e) == {}
  {
  }

  lemma {:induction false} RunTale(events: seq<Event>, h: Handoff)
    requires Fixed(events, h) && NoDeployAfterRollback(events)
    ensures Tale(Run(EMPTY, events), Completions(EMPTY, events), Lookups(EMPTY, events), Demoted(EMPTY, events), h,
      Rolled(events))
    decreases |events|
  {
    hide Inv, Accounted, DiskState, Tale, Apply, Completion, Lookup, Demotion, Housed;
    if events == [] {
      EmptyTale(h);
    } else {
      var front, e := events[..|events| - 1], events[|events| - 1];
      RunTale(front, h);
      EmptyDisk();
      RunKeepsInv(EMPTY, front);
      RunKeepsDisk(EMPTY, front);
      HistoryOfRuns(front);
      assert Rolled(events) == (Rolled(front) || e.Rollback?) by { RolledSnoc(events); }
      StepTale(Run(EMPTY, front), e, Completions(EMPTY, front), Lookups(EMPTY, front), Demoted(EMPTY, front), h,
        Rolled(front));
    }
  }

  lemma EmptyTale(h: Handoff)
    ensures Tale(EMPTY, [], [], {}, h, false)
  {
  }

  lemma RolledSnoc(events: seq<Event>)
    requires events != []
    ensures Rolled(events) <==> Rolled(events[..|events| - 1]) || events[|events| - 1].Rollback?
  {
    var front := events[..|events| - 1];
    if Rolled(front) {
      var i :| 0 <= i < |front| && front[i].Rollback?;
      assert events[i].Rollback?;
    }
    if Rolled(events) && !events[|events| - 1].Rollback? {
      var i :| 0 <= i < |events| && events[i].Rollback?;
      assert front[i].Rollback?;
    }
  }

  /** The completions strictly between these two places. */
  predicate AllBetweenGone(cs: seq<Deployment>, gone: set<Id>, i: nat, j: nat) {
    forall k :: 0 <= k < |cs| && (i < k < j || j < k < i) ==> cs[k].id in gone
  }

  /**
   One handoff, and no deploy after a rollback: between operations the live release and the target of a
   rollback are completions `cs[j]` and `cs[i]`, and all between them have been demoted.  Their ports differ
   if and only if the deploy of the newer one, when it began, found a live release on the primary port just
   when the older one is on the primary port.
   */
  lemma RollbackTargetPort(events: seq<Event>, h: Handoff) returns (i: nat, j: nat)
    requires Fixed(events, h) && NoDeployAfterRollback(events)
    requires var s := Run(EMPTY, events); s.job.Idle? && RollbackTarget(s.world).Some?
    ensures var w, cs, ls, gone := Run(EMPTY, events).world, Completions(EMPTY, events), Lookups(EMPTY, events),
      Demoted(EMPTY, events);
      && i < |cs| == |ls| && j < |cs| && i != j
      && RollbackTarget(w) == Some(cs[i]) && w.current == Some(cs[j].release)
      && AllBetweenGone(cs, gone, i, j)
      && PortsChosen(cs, ls, gone, h) && cs[i].id !in gone
      && var older, newer := if i < j then i else j, if i < j then j else i;
      && (cs[i].port != cs[j].port <==>
            (cs[older].port == Some(h.primary) <==> PortOf(ls[newer]) == Some(h.primary)))
  {
    hide Inv, Run, RollbackTarget, PortsChosen, Accounted, Housed, NewestOnDisk;
    var s, cs, ls, gone := Run(EMPTY, events), Completions(EMPTY, events), Lookups(EMPTY, events),
      Demoted(EMPTY, events);
    RunTale(events, h);
    EmptyDisk();
    RunKeepsInv(EMPTY, events);
    RunKeepsDisk(EMPTY, events);
    HistoryOfRuns(events);
    RecordsNow(s);
    i := TargetAmong(s, cs, gone);
    AccountedReleases(s, cs, gone);
    var live := s.world.current.value;
    j :| 0 <= j < |cs| && cs[j].release == live;
    assert |cs| == |ls| by { SameLength(cs, ls, gone, h); }
    PortsDiffer(cs, ls, gone, h, if i < j then i else j, if i < j then j else i);
  }

  lemma SameLength(cs: seq<Deployment>, ls: seq<Option<Deployment>>, gone: set<Id>, h: Handoff)
    requires PortsChosen(cs, ls, gone, h)
    ensures |cs| == |ls|
  {
  }

  lemma RecordsNow(s: State)
    requires Inv(s)
    ensures Records(s.world.deployments)
  {
  }

  /** So if no completed record was overwritten, every rollback target has another port than the live release. */
  lemma RollbackTargetHasOtherPort(events: seq<Event>, h: Handoff)
    requires Fixed(events, h) && NoDeployAfterRollback(events)
    requires forall c :: c in Completions(EMPTY, events) ==> c.id !in Demoted(EMPTY, events)
    requires var s := Run(EMPTY, events); s.job.Idle? && RollbackTarget(s.world).Some?
    ensures var w := Run(EMPTY, events).world;
      PreviousNode(w).Some? && PreviousNode(w).value.port != RollbackTarget(w).value.port
  {
    hide Inv, Run, RollbackTarget, Accounted, Housed, CompletedOf, Standing, Newest, Completions, Lookups, Demoted;
    var s, cs, ls, gone := Run(EMPTY, events), Completions(EMPTY, events), Lookups(EMPTY, events),
      Demoted(EMPTY, events);
    var i, j := RollbackTargetPort(events, h);
    var older, newer := if i < j then i else j, if i < j then j else i;
    assert newer == older + 1 by {
      var next := cs[older + 1];
      assert next in cs;
    }
    assert cs[older] in cs && cs[j] in cs;
    assert Chosen(cs, ls, gone, h, newer) && cs[..newer][|cs[..newer]| - 1] == cs[older];
    assert ls[newer] == Some(cs[older]);
    HistoryOfRuns(events);
    StandingMembers(cs, gone);
    EmptyDisk();
    RunKeepsInv(EMPTY, events);
    RecordsNow(s);
    assert Chosen(cs, ls, gone, h, j);
    LiveNodeIs(s.world, cs[j]);
  }
}
