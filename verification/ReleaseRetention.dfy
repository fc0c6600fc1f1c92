/** Which releases stay on disk, and which one a rollback chooses. */
module ReleaseRetention {
  import opened Results
  import opened Releases
  import opened ReleaseInvariant
  import opened ReleaseHistory
  import opened ReleaseSafety
  import opened ReleaseCompletions

  // ----- pruning -----

  /** Pruning marks exactly the Completed releases older than the newest `retention`, save the live one. */
  lemma ExpiredExactly(w: World, retention: nat, i: nat)
    requires Records(w.deployments) && i < |History(w)|
    ensures History(w)[i].release in Expired(w, retention) <==>
      i + retention < |History(w)| && w.current != Some(History(w)[i].release)
  {
    var cs := History(w);
    HistoryDistinct(w.deployments);
    if i + retention < |cs| && w.current != Some(cs[i].release) {
      assert Older(cs, retention)[i] == cs[i];
    }
    if cs[i].release in Expired(w, retention) {
      var d :| d in Older(cs, retention) && d.release == cs[i].release;
      var j :| 0 <= j < |cs| - retention && cs[j] == d;
      assert cs[j].release == cs[i].release;
    }
  }

  lemma {:induction false} ReleasesBound(cs: seq<Deployment>)
    ensures |ReleasesOf(cs)| <= |cs|
    decreases |cs|
  {
    if cs != [] {
      ReleasesBound(cs[1..]);
      assert cs == [cs[0]] + cs[1..];
      assert ReleasesOf(cs) == ReleasesOf(cs[1..]) + {cs[0].release};
    }
  }

  /** After pruning at most `retention` Completed releases and the live one are on disk. */
  lemma PruningBound(w: World, retention: nat)
    requires Records(w.deployments)
    ensures |(w.directories - Expired(w, retention)) * ReleasesOf(History(w))| <= retention + 1
  {
    var cs := History(w);
    var newest := if |cs| <= retention then cs else cs[|cs| - retention..];
    var kept := (w.directories - Expired(w, retention)) * ReleasesOf(cs);
    var live := if w.current.Some? then {w.current.value} else {};
    forall r | r in kept
      ensures r in ReleasesOf(newest) + live
    {
      var d :| d in cs && d.release == r;
      var i :| 0 <= i < |cs| && cs[i] == d;
      ExpiredExactly(w, retention, i);
      if i + retention >= |cs| {
        assert cs[i] in newest by {
          assert |cs| > retention ==> newest[i - (|cs| - retention)] == cs[i];
        }
      }
    }
    ReleasesBound(newest);
    assert kept <= ReleasesOf(newest) + live;
    SubsetBound(kept, ReleasesOf(newest) + live);
  }

  lemma SubsetBound(a: set<Release>, b: set<Release>)
    requires a <= b
    ensures |a| <= |b|
  {
    assert b == a + (b - a);
  }

  // ----- the releases on disk are the newest ones -----

  /** The record at this place is Completed and its release exists. */
  predicate OnDisk(ds: seq<Deployment>, directories: set<Release>, i: nat) {
    i < |ds| && ds[i].status == Completed && ds[i].release in directories
  }

  predicate DiskOrder(ds: seq<Deployment>, directories: set<Release>) {
    forall i, j :: 0 <= i < j < |ds| && OnDisk(ds, directories, i) && ds[j].status == Completed ==>
      OnDisk(ds, directories, j)
  }

  /** A Completed release is on disk only if all newer ones are. */
  predicate NewestOnDisk(w: World) {
    DiskOrder(w.deployments, w.directories)
  }

  ghost predicate DiskState(s: State) {
    match s.job
    case Idle => NewestOnDisk(s.world)
    case Deploying(origin, _, _, _, _) => NewestOnDisk(origin)
    case RollingBack(origin, _, _, _, _, _) => NewestOnDisk(origin)
  }

  /** Places of the history, in the same order, are places of the list. */
  lemma {:induction false} ListPlaces(ds: seq<Deployment>, i: nat, j: nat) returns (p: nat, q: nat)
    requires i < j < |CompletedOf(ds)|
    ensures p < q < |ds| && ds[p] == CompletedOf(ds)[i] && ds[q] == CompletedOf(ds)[j]
    ensures ds[p].status == Completed && ds[q].status == Completed
    decreases |ds|
  {
    var last := |ds| - 1;
    var front := ds[..last];
    HistoryOfLast(ds);
    hide CompletedOf;
    if j == |CompletedOf(front)| {
      assert CompletedOf(ds)[i] == CompletedOf(front)[i] && CompletedOf(front)[i] in CompletedOf(front);
      p :| 0 <= p < last && front[p] == CompletedOf(ds)[i];
      q := last;
    } else {
      p, q := ListPlaces(front, i, j);
    }
  }

  lemma HistoryPlace(ds: seq<Deployment>, p: nat) returns (i: nat)
    requires p < |ds| && ds[p].status == Completed
    ensures i < |CompletedOf(ds)| && ds[p] == CompletedOf(ds)[i]
  {
    hide CompletedOf;
    assert ds[p] in ds && ds[p] in CompletedOf(ds);
    i :| 0 <= i < |CompletedOf(ds)| && CompletedOf(ds)[i] == ds[p];
  }

  /** And back. */
  lemma {:induction false} HistoryPlaces(ds: seq<Deployment>, p: nat, q: nat) returns (i: nat, j: nat)
    requires p < q < |ds| && ds[p].status == Completed && ds[q].status == Completed
    ensures i < j < |CompletedOf(ds)| && ds[p] == CompletedOf(ds)[i] && ds[q] == CompletedOf(ds)[j]
    decreases |ds|
  {
    hide CompletedOf;
    var front, last := ds[..|ds| - 1], ds[|ds| - 1];
    assert ds == front + [last];
    HistoryOfSnoc(front, last);
    if q == |front| {
      i := HistoryPlace(front, p);
      j := |CompletedOf(front)|;
    } else {
      i, j := HistoryPlaces(front, p, q);
    }
  }

  lemma NewestInHistoryOnDisk(w: World, i: nat, j: nat)
    requires NewestOnDisk(w) && i <= j < |History(w)| && History(w)[i].release in w.directories
    ensures History(w)[j].release in w.directories
  {
    if i < j {
      var p, q := ListPlaces(w.deployments, i, j);
      assert OnDisk(w.deployments, w.directories, p);
    }
  }

  /** Records that stop being Completed leave the order of the others. */
  lemma DemotionKeepsDiskOrder(before: seq<Deployment>, after: seq<Deployment>, directories: set<Release>)
    requires DiskOrder(before, directories) && |before| <= |after| && Related(before, after[..|before|])
    requires forall i :: |before| <= i < |after| ==> after[i].status != Completed
    ensures DiskOrder(after, directories)
  {
    forall i, j | 0 <= i < j < |after| && OnDisk(after, directories, i) && after[j].status == Completed
      ensures OnDisk(after, directories, j)
    {
      assert after[..|before|][i] == after[i] && after[..|before|][j] == after[j];
      assert OnDisk(before, directories, i);
      assert OnDisk(before, directories, j);
    }
  }

  /** The world of a deploy that is about to prune. */
  lemma BeforePruning(s: State)
    requires Inv(s) && s.job.Deploying? && s.job.pc.Prune?
    ensures var before, w, d := s.job.origin.deployments, s.world, s.job.local;
      && |w.deployments| == |before| + 1 && Related(before, w.deployments[..|before|])
      && w.deployments[|before|].id == d.id && d.release == ReleaseDir(d.id) && w.current == Some(d.release)
      && w.directories == s.job.origin.directories + {d.release}
      && Records(w.deployments)
      && forall i :: 0 <= i < |before| && w.deployments[i].status == Completed ==> w.deployments[i].release != d.release
  {
    hide PreviousNode, Expired, Related;
    PruneEndsDeploy(s, true);
    var before, ds := s.job.origin.deployments, s.world.deployments;
    forall i | 0 <= i < |before| && ds[i].status == Completed
      ensures ds[i].release != s.job.local.release
    {
      assert Proper(ds[i]) && ds[i].id != ds[|before|].id;
    }
  }

  lemma BeforePruningNewest(s: State)
    requires Inv(s) && s.job.Deploying? && s.job.pc.Prune? && NewestOnDisk(s.job.origin)
    ensures NewestOnDisk(s.world)
    ensures forall i :: 0 <= i < |s.world.deployments| - 1 && s.world.deployments[i].status == Completed ==>
      s.world.current != Some(s.world.deployments[i].release)
  {
    hide Inv;
    BeforePruning(s);
    var before, ds, w := s.job.origin.deployments, s.world.deployments, s.world;
    var n := |before|;
    forall i, j | 0 <= i < j < |ds| && OnDisk(ds, w.directories, i) && ds[j].status == Completed
      ensures OnDisk(ds, w.directories, j)
    {
      assert ds[..n][i] == ds[i] && OnDisk(before, s.job.origin.directories, i);
      if j < n {
        assert ds[..n][j] == ds[j] && OnDisk(before, s.job.origin.directories, j);
      } else {
        assert Proper(ds[n]);
      }
    }
  }

  lemma PruningKeepsNewest(w: World, retention: nat)
    requires Records(w.deployments) && NewestOnDisk(w)
    requires forall i :: 0 <= i < |w.deployments| - 1 && w.deployments[i].status == Completed ==>
      w.current != Some(w.deployments[i].release)
    ensures NewestOnDisk(w.(directories := w.directories - Expired(w, retention)))
  {
    hide Expired;
    var ds, kept := w.deployments, w.directories - Expired(w, retention);
    forall p, q | 0 <= p < q < |ds| && OnDisk(ds, kept, p) && ds[q].status == Completed
      ensures OnDisk(ds, kept, q)
    {
      assert OnDisk(ds, w.directories, p) && OnDisk(ds, w.directories, q);
      var i, j := HistoryPlaces(ds, p, q);
      ExpiredExactly(w, retention, i);
      ExpiredExactly(w, retention, j);
    }
  }

  lemma PruneStep(s: State, ok: bool)
    requires s.job.Deploying? && s.job.pc.Prune?
    ensures DeployStep(s, ok).world ==
      s.world.(directories := s.world.directories - Expired(s.world, s.job.config.retention))
  {
    hide Expired;
  }

  /** A deploy that did not complete ends without a Completed record of its own. */
  lemma FailedDeployEndsDisk(s: State, ok: bool)
    requires Inv(s) && s.job.Deploying? && !s.job.pc.Prune? && DeployStep(s, ok).job.Idle? && NewestOnDisk(s.job.origin)
    ensures NewestOnDisk(DeployStep(s, ok).world)
  {
    hide Progress, Undoing, Aborting, DeployStep, RecordWritten, Related, DiskOrder;
    FailureIsNotDone(s, ok);
    FailureEnds(s, ok);
    DeployWrites(s, ok);
    OwnStep(s, ok);
    OwnLastStatus(s);
    DemotionKeepsDiskOrder(s.job.origin.deployments, DeployStep(s, ok).world.deployments, s.job.origin.directories);
  }

  lemma FailureIsNotDone(s: State, ok: bool)
    requires s.job.Deploying? && !s.job.pc.Prune? && DeployStep(s, ok).job.Idle?
    ensures s.job.pc.Undo? || s.job.pc.Abort?
  {
    hide DeployStep;
    DeployJob(s, ok);
  }

  lemma DeployEndsDisk(s: State, ok: bool)
    requires Inv(s) && s.job.Deploying? && DeployStep(s, ok).job.Idle? && NewestOnDisk(s.job.origin)
    ensures NewestOnDisk(DeployStep(s, ok).world)
  {
    hide Inv, NewestOnDisk, DeployStep, Expired;
    if s.job.pc.Prune? {
      BeforePruning(s);
      BeforePruningNewest(s);
      PruneStep(s, ok);
      PruningKeepsNewest(s.world, s.job.config.retention);
    } else {
      FailedDeployEndsDisk(s, ok);
    }
  }

  lemma RollbackEndsDisk(s: State, ok: bool)
    requires Inv(s) && s.job.RollingBack? && NewestOnDisk(s.job.origin) && RollbackStep(s, ok).job.Idle?
    ensures NewestOnDisk(RollbackStep(s, ok).world)
  {
    hide RollbackStep, RollingForward, Related, DiskOrder;
    RollbackEnds(s, ok);
    RollbackWrites(s, ok);
    var before, ds, es := s.job.origin.deployments, s.world.deployments, RollbackStep(s, ok).world.deployments;
    RelatedLength(before, ds);
    if s.job.rpc.WriteRollback? {
      UpsertNew(ds, RollbackRecord(s.job.target, s.job.record, s.job.before));
      assert es[..|before|] == ds;
    }
    DemotionKeepsDiskOrder(before, es, s.job.origin.directories);
  }

  lemma CancelKeepsDisk(s: State, e: Event)
    requires Inv(s) && (e.CancelRead? || e.CancelMark? || e.CancelWrite?) && NewestOnDisk(s.world)
    ensures NewestOnDisk(CancelStep(s, e).world)
  {
    hide Shaped, Related, DiskOrder;
    CancelEffect(s, e);
    if e.CancelWrite? && e.request in s.requests && s.requests[e.request].marked {
      var ds, r := s.world.deployments, s.requests[e.request].snapshot.(status := Cancelling);
      OneDemotion(ds, r);
      DemotionKeepsDiskOrder(ds, Upsert(ds, r), s.world.directories);
    }
  }

  lemma OneDemotion(ds: seq<Deployment>, r: Deployment)
    requires Records(ds) && Has(ds, r.id) && Proper(r) && r.status == Cancelling
    ensures |Upsert(ds, r)| == |ds| && Related(ds, Upsert(ds, r)[..|ds|])
  {
    UpsertInPlace(ds, r);
    assert Upsert(ds, r)[..|ds|] == Upsert(ds, r);
  }

  lemma StepKeepsDisk(s: State, e: Event)
    requires Inv(s) && DiskState(s)
    ensures DiskState(Apply(s, e))
  {
    hide Inv, NewestOnDisk, DeployStep, RollbackStep, CancelStep, Fresh;
    match e
    case Deploy(_, _) =>
    case Rollback(_) =>
    case Outcome(ok) =>
      if s.job.Deploying? {
        DeployJob(s, ok);
        if DeployStep(s, ok).job.Idle? { DeployEndsDisk(s, ok); }
      } else if s.job.RollingBack? {
        RollbackWrites(s, ok);
        if RollbackStep(s, ok).job.Idle? { RollbackEndsDisk(s, ok); }
      }
    case _ =>
      CancelEffect(s, e);
      if s.job.Idle? { CancelKeepsDisk(s, e); }
  }

  lemma {:induction false} RunKeepsDisk(s: State, events: seq<Event>)
    requires Inv(s) && DiskState(s)
    ensures DiskState(Run(s, events))
    decreases |events|
  {
    hide Inv, DiskState, Apply;
    if events != [] {
      var front := events[..|events| - 1];
      RunKeepsDisk(s, front);
      RunKeepsInv(s, front);
      StepKeepsDisk(Run(s, front), events[|events| - 1]);
    }
  }

  lemma EmptyDisk()
    ensures Inv(EMPTY) && DiskState(EMPTY)
  {
  }

  // ----- pruning and the choice of a rollback -----

  /** Pruning with a retention of at least two leaves the choice of a rollback as it is. */
  lemma TargetAfterPruning(w: World, retention: nat)
    requires Records(w.deployments) && NewestOnDisk(w) && retention >= 2
    ensures RollbackTarget(w.(directories := w.directories - Expired(w, retention))) == RollbackTarget(w)
  {
    hide RollbackTarget, Expired, NewestOnDisk, CompletedOf;
    var v := w.(directories := w.directories - Expired(w, retention));
    var n := |History(w)|;
    if RollbackTarget(w).Some? {
      var k := TargetAt(w);
      if k + 2 < n {
        NewestInHistoryOnDisk(w, k, n - 1);
        NewestInHistoryOnDisk(w, k, n - 2);
        NewerIsLive(w, k, n - 1);
        NewerIsLive(w, k, n - 2);
        HistoryDistinct(w.deployments);
        assert false;
      }
      ExpiredExactly(w, retention, k);
      TargetFrom(v, k);
    } else if RollbackTarget(v).Some? {
      var k := TargetAt(v);
      NoTarget(w, History(w)[k]);
    }
  }

  lemma NewerIsLive(w: World, k: nat, j: nat)
    requires k < j < |History(w)| && History(w)[j].release in w.directories
    requires !IsCandidate(w, History(w)[j])
    ensures w.current == Some(History(w)[j].release)
  {
    assert History(w)[j] in History(w);
  }

  lemma NoTarget(w: World, r: Deployment)
    requires RollbackTarget(w).None? && r in History(w)
    ensures !IsCandidate(w, r)
  {
    assert r in w.deployments;
  }

  /**
   In every reachable state: when a deploy prunes with a retention of at least two, the release an
   immediate rollback would have chosen before is the one it chooses after.
   */
  lemma PruningKeepsRollbackTarget(events: seq<Event>, ok: bool)
    requires var s := Run(EMPTY, events); s.job.Deploying? && s.job.pc.Prune? && s.job.config.retention >= 2
    ensures var s := Run(EMPTY, events);
      RollbackTarget(DeployStep(s, ok).world) == RollbackTarget(s.world)
  {
    hide Inv, RollbackTarget;
    var s := Run(EMPTY, events);
    EmptyDisk();
    RunKeepsInv(EMPTY, events);
    RunKeepsDisk(EMPTY, events);
    BeforePruning(s);
    BeforePruningNewest(s);
    PruneStep(s, ok);
    TargetAfterPruning(s.world, s.job.config.retention);
  }

  /** With the newest release live, the target is the second newest if that is on disk, and nothing otherwise. */
  lemma TargetOfNewest(w: World)
    requires Records(w.deployments) && NewestOnDisk(w) && |History(w)| > 0
    requires w.current == Some(History(w)[|History(w)| - 1].release)
    ensures var n := |History(w)|;
      RollbackTarget(w) ==
        if n >= 2 && History(w)[n - 2].release in w.directories then Some(History(w)[n - 2]) else None
  {
    hide RollbackTarget, NewestOnDisk, CompletedOf;
    var cs, n := History(w), |History(w)|;
    HistoryDistinct(w.deployments);
    if n >= 2 && cs[n - 2].release in w.directories {
      assert cs[n - 2] in cs;
      TargetFrom(w, n - 2);
    } else if RollbackTarget(w).Some? {
      var k := TargetAt(w);
      if k < n - 1 { NewestInHistoryOnDisk(w, k, n - 2); }
      assert false;
    }
  }

  // ----- repeated rollbacks -----

  /** Places `b < a` of the list hold the two newest Completed records whose releases exist. */
  predicate TwoNewest(w: World, a: nat, b: nat) {
    var ds := w.deployments;
    && b < a && OnDisk(ds, w.directories, a) && OnDisk(ds, w.directories, b)
    && forall j :: b < j < |ds| && j != a ==> !OnDisk(ds, w.directories, j)
  }

  /** A rollback goes to the newest existing release, or to the second newest if the newest is live. */
  lemma RollbackGoesTo(w: World, a: nat, b: nat)
    requires Records(w.deployments) && TwoNewest(w, a, b)
    ensures var ds := w.deployments;
      RollbackTarget(w) == Some(ds[if w.current == Some(ds[a].release) then b else a])
  {
    var ds := w.deployments;
    assert Proper(ds[a]) && Proper(ds[b]) && ds[a].id != ds[b].id;
    var k := if w.current == Some(ds[a].release) then b else a;
    forall j | k < j < |ds|
      ensures !IsCandidate(w, ds[j])
    {
      assert j != a ==> !OnDisk(ds, w.directories, j);
    }
    NewestFrom(ds, Candidates(w), k);
  }

  /**
   The rollback that writes its record went to the release it chose when it began; the record has the new id,
   the release, unit and port of the target, and the release that was live before as its previous one.
   */
  lemma SuccessfulRollback(s: State, ok: bool)
    requires Inv(s) && s.job.RollingBack? && s.job.rpc.WriteRollback?
    ensures var t, origin := RollbackStep(s, ok), s.job.origin;
      && t.job.Idle? && RollbackTarget(origin).Some?
      && var target := RollbackTarget(origin).value;
      && t.world == s.world.(deployments := s.world.deployments
         + [Deployment(s.job.record, target.release, RolledBack, target.healthy, origin.current,
              [Phase(RollbackPhase, PhaseCompleted)], false, target.port, target.unit)])
      && t.world.current == Some(target.release) && t.world.directories == origin.directories
      && Calm(t, s.job.record)
  {
    hide Newest, ActiveNode, Upsert, Related, Find;
    var r := RollbackRecord(s.job.target, s.job.record, s.job.before);
    UpsertNew(s.world.deployments, r);
    FindAfterUpsert(s.world.deployments, r, r.id);
  }

  /** The record of a rollback is never changed again. */
  lemma {:induction false} RollbackRecordStays(s: State, events: seq<Event>, id: Id)
    requires Inv(s) && Calm(s, id)
    ensures Calm(Run(s, events), id)
    ensures Find(Run(s, events).world.deployments, id) == Find(s.world.deployments, id)
    decreases |events|
  {
    hide Inv, Calm, Apply, Find;
    if events != [] {
      var front := events[..|events| - 1];
      RollbackRecordStays(s, front, id);
      RunKeepsInv(s, front);
      StepKeepsCalm(Run(s, front), events[|events| - 1], id);
    }
  }

  lemma StepKeepsCalm(s: State, e: Event, id: Id)
    requires Inv(s) && Calm(s, id)
    ensures Calm(Apply(s, e), id)
    ensures Find(Apply(s, e).world.deployments, id) == Find(s.world.deployments, id)
  {
    hide Upsert, Related, Find, DeployStep, RollbackStep, CancelStep, Shaped;
    var ds := s.world.deployments;
    match e
    case Deploy(i, config) =>
      if s.job.Idle? && Fresh(s.world, i) {
        HasIfFound(ds, id);
        FindAfterUpsert(ds, NewRecord(s.world, i), id);
      }
    case Rollback(_) =>
    case Outcome(ok) =>
      if s.job.Deploying? {
        DeployKeepsCalm(s, ok, id);
      } else if s.job.RollingBack? {
        RollbackWrites(s, ok);
        HasIfFound(ds, id);
        FindAfterUpsert(ds, RollbackRecord(s.job.target, s.job.record, s.job.before), id);
      }
    case _ => CancelKeepsCalm(s, e, id);
  }

  lemma DeployKeepsCalm(s: State, ok: bool, id: Id)
    requires Inv(s) && s.job.Deploying? && Calm(s, id)
    ensures Calm(DeployStep(s, ok), id)
    ensures Find(DeployStep(s, ok).world.deployments, id) == Find(s.world.deployments, id)
  {
    hide Progress, Undoing, Aborting, Related, RecordWritten, DeployStep, Upsert;
    DeployWrites(s, ok);
    var ds, n := s.world.deployments, |s.job.origin.deployments|;
    IndexAt(ds, n);
    if RecordWritten(s, ok).Some? { FindAfterUpsert(ds, RecordWritten(s, ok).value, id); }
  }

  predicate NoDeploy(events: seq<Event>) {
    forall i :: 0 <= i < |events| ==> !events[i].Deploy?
  }

  /** Every rollback that ends in the run ends with its record. */
  predicate AllSucceed(s: State, events: seq<Event>)
    decreases |events|
  {
    events == [] ||
    var front, e := events[..|events| - 1], events[|events| - 1];
    var u := Run(s, front);
    AllSucceed(s, front) && (u.job.RollingBack? && Apply(u, e).job.Idle? ==> u.job.rpc.WriteRollback?)
  }

  function Success(s: State, e: Event): nat {
    if e.Outcome? && s.job.RollingBack? && s.job.rpc.WriteRollback? then 1 else 0
  }

  /** How many rollbacks of the run recorded their success. */
  function Successes(s: State, events: seq<Event>): nat
    decreases |events|
  {
    if events == [] then 0
    else
      var front := events[..|events| - 1];
      Successes(s, front) + Success(Run(s, front), events[|events| - 1])
  }

  /** The live release after `n` successful rollbacks. */
  function LiveAfter(first: Option<Release>, newest: Release, second: Release, n: nat): Option<Release> {
    if n == 0 then first
    else if LiveAfter(first, newest, second, n - 1) == Some(newest) then Some(second)
    else Some(newest)
  }

  lemma {:induction false} LiveAfterAlternates(first: Option<Release>, newest: Release, second: Release, n: nat)
    requires newest != second && n > 0
    ensures LiveAfter(first, newest, second, n)
         == Some(if (n % 2 == 1) == (first == Some(newest)) then second else newest)
  {
    if n > 1 {
      LiveAfterAlternates(first, newest, second, n - 1);
    }
  }

  /** The two records stand where they stood, and `current` is where `n` rollbacks took it. */
  ghost predicate Swinging(s: State, a: nat, b: nat, ra: Deployment, rb: Deployment, live: Option<Release>) {
    && !s.job.Deploying?
    && TwoNewest(s.world, a, b) && s.world.deployments[a] == ra && s.world.deployments[b] == rb
    && (s.job.Idle? ==> s.world.current == live)
    && (s.job.RollingBack? ==>
          var origin := s.job.origin;
          TwoNewest(origin, a, b) && origin.deployments[a] == ra && origin.deployments[b] == rb
            && origin.current == live)
  }

  lemma CancelKeepsTwoNewest(s: State, e: Event, a: nat, b: nat)
    requires Inv(s) && (e.CancelRead? || e.CancelMark? || e.CancelWrite?) && !s.job.Deploying?
      && TwoNewest(s.world, a, b)
    requires s.world.deployments[a].id !in Demotion(s, e) && s.world.deployments[b].id !in Demotion(s, e)
    ensures var t := CancelStep(s, e);
      && TwoNewest(t.world, a, b)
      && t.world.deployments[a] == s.world.deployments[a] && t.world.deployments[b] == s.world.deployments[b]
  {
    hide Shaped, Related, Upsert, Has;
    CancelEffect(s, e);
    if e.CancelWrite? && e.request in s.requests && s.requests[e.request].marked {
      var ds, r := s.world.deployments, s.requests[e.request].snapshot.(status := Cancelling);
      assert Has(ds, r.id);
      UpsertInPlace(ds, r);
      HasIfFound(ds, r.id);
      var es := Upsert(ds, r);
      forall j | b < j < |es| && j != a
        ensures !OnDisk(es, s.world.directories, j)
      {
        assert !OnDisk(ds, s.world.directories, j);
      }
    }
  }

  lemma RecordKeepsTwoNewest(w: World, r: Deployment, v: World, a: nat, b: nat)
    requires TwoNewest(w, a, b) && r.status == RolledBack
    requires v.deployments == w.deployments + [r] && v.directories == w.directories
    ensures TwoNewest(v, a, b)
    ensures v.deployments[a] == w.deployments[a] && v.deployments[b] == w.deployments[b]
  {
    forall j | b < j < |v.deployments| && j != a
      ensures !OnDisk(v.deployments, v.directories, j)
    {
      assert j < |w.deployments| ==> !OnDisk(w.deployments, w.directories, j);
    }
  }

  lemma RollbackStepSwings(s: State, ok: bool, a: nat, b: nat, ra: Deployment, rb: Deployment, live: Option<Release>)
    requires Inv(s) && s.job.RollingBack? && Swinging(s, a, b, ra, rb, live)
    requires RollbackStep(s, ok).job.Idle? ==> s.job.rpc.WriteRollback?
    ensures Swinging(RollbackStep(s, ok), a, b, ra, rb,
      if !s.job.rpc.WriteRollback? then live
      else if live == Some(ra.release) then Some(rb.release)
      else Some(ra.release))
  {
    hide RollbackStep, RollingForward, Related, Upsert, RollbackTarget;
    RollbackWrites(s, ok);
    RollbackKeepsDirectories(s, ok);
    if s.job.rpc.WriteRollback? {
      SuccessfulRollback(s, ok);
      RollbackGoesTo(s.job.origin, a, b);
      var w := RollbackStep(s, ok).world;
      RecordKeepsTwoNewest(s.world, w.deployments[|s.world.deployments|], w, a, b);
    }
  }

  lemma StepSwings(s: State, e: Event, a: nat, b: nat, ra: Deployment, rb: Deployment, live: Option<Release>)
    requires Inv(s) && Swinging(s, a, b, ra, rb, live) && !e.Deploy?
    requires ra.id !in Demotion(s, e) && rb.id !in Demotion(s, e)
    requires s.job.RollingBack? && Apply(s, e).job.Idle? ==> s.job.rpc.WriteRollback?
    ensures Swinging(Apply(s, e), a, b, ra, rb,
      if Success(s, e) == 1 then if live == Some(ra.release) then Some(rb.release) else Some(ra.release) else live)
  {
    hide Inv, TwoNewest, RollbackStep, CancelStep, Demotion, RollbackTarget, ActiveNode;
    match e
    case Rollback(_) =>
    case Outcome(ok) =>
      if s.job.RollingBack? { RollbackStepSwings(s, ok, a, b, ra, rb, live); }
    case _ =>
      CancelEffect(s, e);
      CancelKeepsTwoNewest(s, e, a, b);
  }

  lemma {:induction false} RunSwings(s: State, events: seq<Event>, a: nat, b: nat, ra: Deployment, rb: Deployment)
    requires Inv(s) && Swinging(s, a, b, ra, rb, s.world.current) && s.job.Idle?
    requires NoDeploy(events) && AllSucceed(s, events) && ra.id !in Demoted(s, events) && rb.id !in Demoted(s, events)
    ensures Swinging(Run(s, events), a, b, ra, rb,
      LiveAfter(s.world.current, ra.release, rb.release, Successes(s, events)))
    decreases |events|
  {
    hide Inv, Swinging, Apply, Demotion;
    if events != [] {
      var front, e := events[..|events| - 1], events[|events| - 1];
      RunSwings(s, front, a, b, ra, rb);
      RunKeepsInv(s, front);
      StepSwings(Run(s, front), e, a, b, ra, rb,
        LiveAfter(s.world.current, ra.release, rb.release, Successes(s, front)));
    }
  }

  /**
   With no deploy and every rollback that ends succeeding, the first goes to the newest existing release, or
   to the second newest if the newest was live, and from then on they alternate between the two, whatever is
   cancelled in between, as long as neither of the two records is overwritten.
   */
  lemma RollbacksAlternate(s: State, events: seq<Event>, a: nat, b: nat)
    requires Inv(s) && s.job.Idle? && TwoNewest(s.world, a, b)
    requires NoDeploy(events) && AllSucceed(s, events)
    requires s.world.deployments[a].id !in Demoted(s, events) && s.world.deployments[b].id !in Demoted(s, events)
    ensures var t, n, ds := Run(s, events), Successes(s, events), s.world.deployments;
      && TwoNewest(t.world, a, b)
      && (t.job.Idle? ==>
            t.world.current ==
              if n == 0 then s.world.current
              else Some(ds[if (n % 2 == 1) == (s.world.current == Some(ds[a].release)) then b else a].release))
  {
    var ra, rb := s.world.deployments[a], s.world.deployments[b];
    hide TwoNewest, Run, Shaped;
    assert ra.release != rb.release by { DifferentReleases(s.world, a, b); }
    RunSwings(s, events, a, b, ra, rb);
    if Successes(s, events) > 0 {
      LiveAfterAlternates(s.world.current, ra.release, rb.release, Successes(s, events));
    }
  }

  lemma DifferentReleases(w: World, a: nat, b: nat)
    requires Records(w.deployments) && TwoNewest(w, a, b)
    ensures w.deployments[a].release != w.deployments[b].release
  {
    var ds := w.deployments;
    assert Proper(ds[a]) && Proper(ds[b]) && ds[a].id != ds[b].id;
  }
}
