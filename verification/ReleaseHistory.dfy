/**
 The sequence of Completed records, oldest first, searches in it, and what one step of a deploy
 writes to the deployment list.
 */
module ReleaseHistory {
  import opened Results
  import opened Releases
  import opened ReleaseInvariant

  function History(w: World): seq<Deployment> {
    CompletedOf(w.deployments)
  }

  function ReleasesOf(rs: seq<Deployment>): set<Release> {
    set r | r in rs :: r.release
  }

  /** The records of the list whose ids are not in `gone`. */
  function Standing(rs: seq<Deployment>, gone: set<Id>): seq<Deployment> {
    if rs == [] then []
    else
      var front, last := Standing(rs[..|rs| - 1], gone), rs[|rs| - 1];
      if last.id in gone then front else front + [last]
  }

  lemma {:induction false} StandingMembers(rs: seq<Deployment>, gone: set<Id>)
    ensures forall r :: r in Standing(rs, gone) <==> r in rs && r.id !in gone
    decreases |rs|
  {
    if rs != [] {
      StandingMembers(rs[..|rs| - 1], gone);
      assert rs == rs[..|rs| - 1] + [rs[|rs| - 1]];
    }
  }

  // ----- lists -----

  lemma HistoryOfLast(ds: seq<Deployment>)
    requires ds != []
    ensures var front, last := CompletedOf(ds[..|ds| - 1]), ds[|ds| - 1];
      CompletedOf(ds) == if last.status == Completed then front + [last] else front
  {
  }

  lemma StandingSnoc(rs: seq<Deployment>, r: Deployment, gone: set<Id>)
    ensures Standing(rs + [r], gone) == if r.id in gone then Standing(rs, gone) else Standing(rs, gone) + [r]
  {
    assert (rs + [r])[..|rs|] == rs;
  }

  lemma {:induction false} StandingAll(rs: seq<Deployment>, gone: set<Id>)
    requires forall r :: r in rs ==> r.id !in gone
    ensures Standing(rs, gone) == rs
    decreases |rs|
  {
    if rs != [] {
      var front := rs[..|rs| - 1];
      assert rs == front + [rs[|rs| - 1]];
      StandingAll(front, gone);
    }
  }

  lemma {:induction false} StandingTwice(rs: seq<Deployment>, a: set<Id>, b: set<Id>)
    ensures Standing(Standing(rs, a), b) == Standing(rs, a + b)
    decreases |rs|
  {
    if rs != [] {
      var front, last := rs[..|rs| - 1], rs[|rs| - 1];
      StandingTwice(front, a, b);
      if last.id !in a { StandingSnoc(Standing(front, a), last, b); }
    }
  }

  predicate DistinctRecords(ds: seq<Deployment>) {
    forall i, j :: 0 <= i < j < |ds| ==> ds[i].id != ds[j].id
  }

  /** `es` is `ds` with the record at `k` overwritten. */
  predicate Overwrites(ds: seq<Deployment>, k: nat, d: Deployment, es: seq<Deployment>) {
    && k < |ds| && |es| == |ds| && es[k] == d && d.id == ds[k].id
    && forall i :: 0 <= i < |ds| && i != k ==> es[i] == ds[i]
  }

  lemma HistoryOfSnoc(ds: seq<Deployment>, d: Deployment)
    ensures CompletedOf(ds + [d]) == if d.status == Completed then CompletedOf(ds) + [d] else CompletedOf(ds)
  {
    HistoryOfLast(ds + [d]);
    assert (ds + [d])[..|ds|] == ds;
  }

  lemma DemotionBelow(ds: seq<Deployment>, es: seq<Deployment>, last: Deployment, id: Id)
    requires CompletedOf(es) == Standing(CompletedOf(ds), {id}) && last.id != id
    ensures CompletedOf(es + [last]) == Standing(CompletedOf(ds + [last]), {id})
  {
    hide CompletedOf, Standing;
    HistoryOfSnoc(ds, last);
    HistoryOfSnoc(es, last);
    StandingSnoc(CompletedOf(ds), last, {id});
  }

  lemma DemotionOfLast(front: seq<Deployment>, last: Deployment, d: Deployment)
    requires d.id == last.id && d.status != Completed && DistinctRecords(front + [last])
    ensures CompletedOf(front + [d]) == Standing(CompletedOf(front + [last]), {d.id})
  {
    hide CompletedOf, Standing;
    HistoryOfSnoc(front, d);
    HistoryOfSnoc(front, last);
    StandingSnoc(CompletedOf(front), last, {d.id});
    forall r | r in CompletedOf(front)
      ensures r.id !in {d.id}
    {
      var i :| 0 <= i < |front| && front[i] == r;
      var all := front + [last];
      assert all[i] == r && all[|front|] == last;
    }
    StandingAll(CompletedOf(front), {d.id});
  }

  /** A record overwritten with one that is not Completed leaves the history, if it was there; the others stay. */
  lemma {:induction false} HistoryOfDemotion(ds: seq<Deployment>, k: nat, d: Deployment, es: seq<Deployment>)
    requires Overwrites(ds, k, d, es) && d.status != Completed && DistinctRecords(ds)
    ensures CompletedOf(es) == Standing(CompletedOf(ds), {d.id})
    decreases |ds|
  {
    hide CompletedOf, Standing;
    var n := |ds| - 1;
    var front, last := ds[..n], ds[n];
    assert ds == front + [last];
    assert es == es[..n] + [es[n]];
    if k < n {
      HistoryOfDemotion(front, k, d, es[..n]);
      DemotionBelow(front, es[..n], last, d.id);
    } else {
      assert es[..n] == front;
      DemotionOfLast(front, last, d);
    }
  }

  /** Completed releases are pairwise different. */
  lemma {:induction false} HistoryDistinct(ds: seq<Deployment>)
    requires Records(ds)
    ensures forall i, j :: 0 <= i < j < |CompletedOf(ds)| ==> CompletedOf(ds)[i].release != CompletedOf(ds)[j].release
    decreases |ds|
  {
    if ds != [] {
      var last := |ds| - 1;
      HistoryDistinct(ds[..last]);
      var front := CompletedOf(ds[..last]);
      HistoryOfLast(ds);
      forall i | 0 <= i < |front| && ds[last].status == Completed
        ensures front[i].release != ds[last].release
      {
        assert front[i] in ds[..last];
        var k :| 0 <= k < last && ds[k] == front[i];
        assert Proper(ds[k]) && Proper(ds[last]) && ds[k].id != ds[last].id;
      }
    }
  }

  /** A search that only accepts Completed records can be made in the history. */
  lemma {:induction false} NewestInHistory(ds: seq<Deployment>, p: Deployment -> bool)
    requires forall d :: p(d) ==> d.status == Completed
    ensures Newest(ds, p) == Newest(CompletedOf(ds), p)
    decreases |ds|
  {
    if ds != [] {
      var last := |ds| - 1;
      NewestInHistory(ds[..last], p);
      if ds[last].status == Completed {
        assert CompletedOf(ds)[..|CompletedOf(ds)| - 1] == CompletedOf(ds[..last]);
      }
    }
  }

  lemma {:induction false} NewestAt(ds: seq<Deployment>, p: Deployment -> bool) returns (k: nat)
    requires Newest(ds, p).Some?
    ensures k < |ds| && Newest(ds, p) == Some(ds[k]) && p(ds[k])
    ensures forall j :: k < j < |ds| ==> !p(ds[j])
    decreases |ds|
  {
    if p(ds[|ds| - 1]) {
      k := |ds| - 1;
    } else {
      k := NewestAt(ds[..|ds| - 1], p);
    }
  }

  lemma {:induction false} NewestFrom(ds: seq<Deployment>, p: Deployment -> bool, k: nat)
    requires k < |ds| && p(ds[k]) && forall j :: k < j < |ds| ==> !p(ds[j])
    ensures Newest(ds, p) == Some(ds[k])
    decreases |ds|
  {
    if k < |ds| - 1 {
      NewestFrom(ds[..|ds| - 1], p, k);
    }
  }

  /** The target of a rollback, by its place in the history. */
  lemma TargetAt(w: World) returns (k: nat)
    requires RollbackTarget(w).Some?
    ensures k < |History(w)| && RollbackTarget(w) == Some(History(w)[k]) && IsCandidate(w, History(w)[k])
    ensures forall j :: k < j < |History(w)| ==> !IsCandidate(w, History(w)[j])
  {
    NewestInHistory(w.deployments, Candidates(w));
    k := NewestAt(History(w), Candidates(w));
  }

  lemma TargetFrom(w: World, k: nat)
    requires k < |History(w)| && IsCandidate(w, History(w)[k])
    requires forall j :: k < j < |History(w)| ==> !IsCandidate(w, History(w)[j])
    ensures RollbackTarget(w) == Some(History(w)[k])
  {
    NewestInHistory(w.deployments, Candidates(w));
    NewestFrom(History(w), Candidates(w), k);
  }

  /** The live release's record is found by its place in the history. */
  lemma LiveNodeIs(w: World, r: Deployment)
    requires Records(w.deployments) && r in History(w) && w.current == Some(r.release) && r.unit.Some?
    ensures PreviousNode(w) == Some(r) && ActiveNode(w) == Some(r)
  {
    var i :| 0 <= i < |w.deployments| && w.deployments[i] == r;
    assert Proper(w.deployments[i]);
    assert r in w.deployments;
    forall x | x in w.deployments && x.status == Completed && x.release == r.release
      ensures x == r
    {
      var j :| 0 <= j < |w.deployments| && w.deployments[j] == x;
      assert Proper(w.deployments[j]);
    }
  }

  lemma LiveNodeInHistory(w: World)
    ensures PreviousNode(w).Some? ==>
      PreviousNode(w).value in History(w) && w.current == Some(PreviousNode(w).value.release)
        && PreviousNode(w).value.unit.Some?
  {
  }

  // ----- records by id -----

  lemma FindAfterUpsert(ds: seq<Deployment>, d: Deployment, id: Id)
    requires Records(ds) && Proper(d)
    ensures Find(Upsert(ds, d), id) == if d.id == id then Some(d) else Find(ds, id)
  {
    if Has(ds, d.id) {
      UpsertInPlace(ds, d);
    } else {
      UpsertNew(ds, d);
    }
    var es := Upsert(ds, d);
    var i, j := IndexOf(ds, id), IndexOf(es, id);
    if i < |ds| && d.id != id {
      assert es[i] == ds[i];
      IndexAt(es, i);
    } else if d.id == id {
      var k := IndexOf(ds, id);
      IndexAt(es, k);
    }
  }

  // ----- records of rollbacks -----

  /** The record of a rollback, which no cancellation in flight has read. */
  predicate Calm(s: State, id: Id) {
    && Find(s.world.deployments, id).Some? && Find(s.world.deployments, id).value.status == RolledBack
    && forall k :: k in s.requests ==> s.requests[k].snapshot.id != id
  }

  lemma CancelKeepsCalm(s: State, e: Event, id: Id)
    requires Listed(s) && Calm(s, id) && (e.CancelRead? || e.CancelMark? || e.CancelWrite?)
    ensures Calm(CancelStep(s, e), id)
    ensures Find(CancelStep(s, e).world.deployments, id) == Find(s.world.deployments, id)
  {
    hide Upsert, Related;
    if e.CancelRead? && CanCancel(s, e.request, e.id) {
      assert e.id != id;
    } else if e.CancelWrite? && e.request in s.requests && s.requests[e.request].marked {
      FindAfterUpsert(s.world.deployments, s.requests[e.request].snapshot.(status := Cancelling), id);
    }
  }

  lemma HasIfFound(ds: seq<Deployment>, id: Id)
    ensures Find(ds, id).Some? <==> Has(ds, id)
  {
  }

  // ----- one step of a deploy -----

  lemma DeployWrites(s: State, ok: bool)
    requires s.job.Deploying? && OwnRecord(s.job)
    ensures var t, d := DeployStep(s, ok), RecordWritten(s, ok);
      && Written(s, t, d)
      && (d.Some? ==> (d.value.status == Completed <==> t.job.Deploying? && Done(t.job.pc)))
      && (t.job.Idle? || (t.job.Deploying? && (d.None? ==> Done(t.job.pc) == Done(s.job.pc))))
      && (t.job.Idle? && Done(s.job.pc) ==> d.None?)
  {
    hide OwnRecord, Written, RecordWritten, StageStep, MainStep, UndoStepOf, AbortStepOf;
    if InStage(s.job.pc) {
      StageStepWrites(s, ok);
      StageStatus(s, ok);
    } else if InMain(s.job.pc) {
      MainStepWrites(s, ok);
      MainStatus(s, ok);
    } else {
      FailureStepWrites(s, ok);
      FailureStatus(s, ok);
    }
  }

  lemma FailureStatus(s: State, ok: bool)
    requires s.job.Deploying? && (s.job.pc.Undo? || s.job.pc.Abort?)
    ensures var t, d := DeployStep(s, ok), RecordWritten(s, ok);
      && (d.Some? ==> d.value.status != Completed)
      && (t.job.Idle? || (t.job.Deploying? && !Done(t.job.pc)))
  {
    hide Upsert;
  }

  /** A deploy keeps its identity until it ends. */
  ghost predicate SameDeploy(s: State, t: State)
    requires s.job.Deploying?
  {
    || t.job.Idle?
    || (t.job.Deploying?
        && t.job == s.job.(local := t.job.local, pc := t.job.pc)
        && t.job.local.id == s.job.local.id && t.job.local.release == s.job.local.release
        && t.job.local.previous == s.job.local.previous
        && (s.job.pc.Undo? ==> t.job.pc.Undo?)
        && (s.job.pc.Abort? ==> t.job.pc.Abort? && t.job.local == s.job.local))
  }

  lemma StageJob(s: State, ok: bool)
    requires s.job.Deploying? && InStage(s.job.pc)
    ensures SameDeploy(s, StageStep(s, ok)) && !StageStep(s, ok).job.Idle?
  {
    hide Upsert, FinishPhase;
  }

  lemma MainJob(s: State, ok: bool)
    requires s.job.Deploying? && InMain(s.job.pc)
    ensures SameDeploy(s, MainStep(s, ok)) && (MainStep(s, ok).job.Idle? <==> s.job.pc.Prune?)
  {
    hide Upsert, Expired;
  }

  lemma FailureJob(s: State, ok: bool)
    requires s.job.Deploying? && (s.job.pc.Undo? || s.job.pc.Abort?)
    ensures SameDeploy(s, DeployStep(s, ok))
  {
    hide Upsert, Activated;
  }

  lemma DeployJob(s: State, ok: bool)
    requires s.job.Deploying?
    ensures SameDeploy(s, DeployStep(s, ok))
    ensures DeployStep(s, ok).job.Idle? ==> s.job.pc.Prune? || s.job.pc.Undo? || s.job.pc.Abort?
  {
    hide SameDeploy, StageStep, MainStep, UndoStepOf, AbortStepOf;
    if InStage(s.job.pc) {
      StageJob(s, ok);
    } else if InMain(s.job.pc) {
      MainJob(s, ok);
    } else {
      FailureJob(s, ok);
    }
  }

  lemma StageStatus(s: State, ok: bool)
    requires s.job.Deploying? && InStage(s.job.pc) && OwnRecord(s.job)
    ensures var t, d := StageStep(s, ok), RecordWritten(s, ok);
      (d.Some? ==> d.value.status != Completed) && t.job.Deploying? && !Done(t.job.pc)
  {
    hide PreviousNode, Fresh, Upsert, FinishPhase;
  }

  lemma MainStatus(s: State, ok: bool)
    requires s.job.Deploying? && InMain(s.job.pc) && OwnRecord(s.job)
    ensures var t, d := MainStep(s, ok), RecordWritten(s, ok);
      && (d.Some? ==> (d.value.status == Completed <==> t.job.Deploying? && Done(t.job.pc)))
      && (t.job.Idle? <==> s.job.pc.Prune?)
      && (t.job.Idle? || t.job.Deploying?)
      && (t.job.Idle? ==> d.None?)
      && (t.job.Deploying? && d.None? ==> Done(t.job.pc) == Done(s.job.pc))
  {
    hide PreviousNode, Fresh, Upsert, FinishPhase, Expired;
  }
}
