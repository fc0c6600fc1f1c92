/** The execution journal of a pipeline: guarded mutators and what every run of them keeps. */
module Journals {
  import opened Results
  import opened Identifiers
  import opened Bindings
  import opened Pipelines

  datatype Status = Planned | Running | Succeeded | Failed | Recovering | Recovered | RecoveryFailed

  datatype StepStatus = StepPending | StepRunning | StepSucceeded | StepFailed | StepRecovered | StepRecoveryFailed

  datatype Entry = Entry(
    stepId: string, status: StepStatus, started: Option<nat>, finished: Option<nat>, message: Option<string>)

  datatype Journal = Journal(status: Status, created: nat, updated: nat, entries: seq<Entry>)

  datatype JournalError =
    | InvalidPipeline | InvalidExecutionId | InvalidTransition | TimeMovedBackwards
    | NotRunning | UnknownStep | NotNextStep | InvalidCompletion

  datatype Op =
    | Transition(next: Status, now: nat)
    | StartStep(id: string, now: nat)
    | FinishStep(id: string, succeeded: bool, message: Option<string>, now: nat)

  // ----- the specification of the mutators -----

  function NewEntries(steps: seq<Step>): seq<Entry> {
    seq(|steps|, i requires 0 <= i < |steps| => Entry(steps[i].id, StepPending, None, None, None))
  }

  function NewJournal(p: Pipeline, now: nat): Journal {
    Journal(Planned, now, now, NewEntries(p.steps))
  }

  predicate Allowed(from: Status, to: Status) {
    || (from.Planned? && to.Running?)
    || (from.Running? && (to.Succeeded? || to.Failed?))
    || (from.Failed? && to.Recovering?)
    || (from.Recovering? && (to.Recovered? || to.RecoveryFailed?))
  }

  /** First entry of that step, or the number of entries. */
  function Position(entries: seq<Entry>, id: string): (k: nat)
    ensures k <= |entries|
    ensures k < |entries| ==> entries[k].stepId == id
    ensures forall i :: 0 <= i < k ==> entries[i].stepId != id
  {
    if entries == [] || entries[0].stepId == id then 0 else 1 + Position(entries[1..], id)
  }

  predicate AllSucceeded(entries: seq<Entry>) {
    forall i :: 0 <= i < |entries| ==> entries[i].status == StepSucceeded
  }

  function Apply(j: Journal, op: Op): Result<Journal, JournalError> {
    match op
    case Transition(next, now) =>
      if !Allowed(j.status, next) then Err(InvalidTransition)
      else if now < j.updated then Err(TimeMovedBackwards)
      else Ok(j.(status := next, updated := now))
    case StartStep(id, now) =>
      if j.status != Running || now < j.updated then Err(NotRunning)
      else
        var k := Position(j.entries, id);
        if k == |j.entries| then Err(UnknownStep)
        else if j.entries[k].status != StepPending || !AllSucceeded(j.entries[..k]) then Err(NotNextStep)
        else Ok(j.(entries := j.entries[k := j.entries[k].(status := StepRunning, started := Some(now))],
          updated := now))
    case FinishStep(id, succeeded, message, now) =>
      var k := Position(j.entries, id);
      if k == |j.entries| then Err(UnknownStep)
      else
        var e := j.entries[k];
        if e.status != StepRunning || (e.started.Some? && e.started.value > now) || now < j.updated then
          Err(InvalidCompletion)
        else
          Ok(j.(entries := j.entries[k := e.(status := if succeeded then StepSucceeded else StepFailed,
                                           finished := Some(now), message := message)],
            updated := now))
  }

  function RecoveryOrder(entries: seq<Entry>): seq<string> {
    if entries == [] then []
    else
      var last := entries[|entries| - 1];
      (if last.status == StepSucceeded then [last.stepId] else []) + RecoveryOrder(entries[..|entries| - 1])
  }

  /** The step at this place waits for none before it, and no step before it has the same id. */
  predicate Next(entries: seq<Entry>, k: nat)
    requires k < |entries|
  {
    && entries[k].status == StepPending
    && forall i :: 0 <= i < k ==> entries[i].status == StepSucceeded && entries[i].stepId != entries[k].stepId
  }

  // ----- the execution object -----

  class PipelineExecution {
    const id: string
    const pipelineId: string
    const target: ResourceRef
    const created: nat
    var status: Status
    var updated: nat
    var entries: seq<Entry>

    function View(): Journal
      reads this
    {
      Journal(status, created, updated, entries)
    }

    constructor (id: string, pipeline: Pipeline, now: nat)
      ensures View() == NewJournal(pipeline, now)
      ensures this.id == id && pipelineId == pipeline.id && target == pipeline.target
    {
      this.id, pipelineId, target := id, pipeline.id, pipeline.target;
      created, status, updated := now, Planned, now;
      entries := NewEntries(pipeline.steps);
    }

    static method Plan(id: string, pipeline: Pipeline, now: nat) returns (r: Result<PipelineExecution, JournalError>)
      ensures r.Ok? <==> ValidPipeline(pipeline) && IsResourceId(id)
      ensures r.Ok? ==> fresh(r.value) && r.value.View() == NewJournal(pipeline, now)
    {
      var valid := Pipelines.Validate(pipeline);
      if valid.Fail? {
        return Err(InvalidPipeline);
      }
      if !IsResourceId(id) {
        return Err(InvalidExecutionId);
      }
      var execution := new PipelineExecution(id, pipeline, now);
      r := Ok(execution);
    }

    /** The outcome of a mutator is the specification's; an error leaves the object as it was. */
    twostate predicate Did(op: Op, new r: Outcome<JournalError>)
      reads this
    {
      match Apply(old(View()), op)
      case Ok(j) => r == Pass && View() == j
      case Err(e) => r == Fail(e) && View() == old(View())
    }

    method TransitionTo(next: Status, now: nat) returns (r: Outcome<JournalError>)
      modifies this
      ensures Did(Transition(next, now), r)
      ensures r.Pass? <==>
        && (old(status), next) in {(Planned, Running), (Running, Succeeded), (Running, Failed), (Failed, Recovering),
                                   (Recovering, Recovered), (Recovering, RecoveryFailed)}
        && old(updated) <= now
      ensures r.Pass? ==> status == next && updated == now && entries == old(entries)
    {
      if !Allowed(status, next) {
        return Fail(InvalidTransition);
      }
      if now < updated {
        return Fail(TimeMovedBackwards);
      }
      status := next;
      updated := now;
      r := Pass;
    }

    method Start(stepId: string, now: nat) returns (r: Outcome<JournalError>)
      modifies this
      ensures Did(StartStep(stepId, now), r)
      ensures r.Pass? <==>
        && old(status) == Running && old(updated) <= now
        && exists k :: 0 <= k < |old(entries)| && old(entries)[k].stepId == stepId && Next(old(entries), k)
      ensures r.Pass? ==>
        var k := Position(old(entries), stepId);
        && k < |old(entries)|
        && entries == old(entries)[k := old(entries)[k].(status := StepRunning, started := Some(now))]
        && updated == now && status == old(status)
    {
      if status != Running || now < updated {
        return Fail(NotRunning);
      }
      var index := Position(entries, stepId);
      if index == |entries| {
        return Fail(UnknownStep);
      }
      if entries[index].status != StepPending || !AllSucceeded(entries[..index]) {
        return Fail(NotNextStep);
      }
      assert Next(entries, index);
      entries := entries[index := entries[index].(status := StepRunning)];
      entries := entries[index := entries[index].(started := Some(now))];
      updated := now;
      r := Pass;
    }

    method Finish(stepId: string, succeeded: bool, message: Option<string>, now: nat) returns (r: Outcome<JournalError>)
      modifies this
      ensures Did(FinishStep(stepId, succeeded, message, now), r)
      ensures r.Pass? <==>
        var k := Position(old(entries), stepId);
        && k < |old(entries)| && old(entries)[k].status == StepRunning && old(updated) <= now
        && (old(entries)[k].started.Some? ==> old(entries)[k].started.value <= now)
      ensures r.Pass? ==>
        var k := Position(old(entries), stepId);
        && entries == old(entries)[k := Entry(stepId, if succeeded then StepSucceeded else StepFailed,
             old(entries)[k].started, Some(now), message)]
        && updated == now && status == old(status)
    {
      var index := Position(entries, stepId);
      if index == |entries| {
        return Fail(UnknownStep);
      }
      var step := entries[index];
      if step.status != StepRunning || (step.started.Some? && step.started.value > now) || now < updated {
        return Fail(InvalidCompletion);
      }
      entries := entries[index := step.(status := if succeeded then StepSucceeded else StepFailed)];
      entries := entries[index := entries[index].(finished := Some(now))];
      entries := entries[index := entries[index].(message := message)];
      updated := now;
      r := Pass;
    }

    /** `recovery_order` walks the entries backwards. */
    method Recovery() returns (order: seq<string>)
      ensures order == RecoveryOrder(entries)
    {
      order := [];
      var i := |entries|;
      assert entries[..i] == entries;
      while i > 0
        invariant i <= |entries|
        invariant RecoveryOrder(entries) == order + RecoveryOrder(entries[..i])
      {
        i := i - 1;
        assert entries[..i + 1][..i] == entries[..i];
        if entries[i].status == StepSucceeded {
          order := order + [entries[i].stepId];
        }
      }
    }
  }

  // ----- runs -----

  /** A refused operation changes nothing. */
  function Run(j: Journal, ops: seq<Op>): Journal
    decreases |ops|
  {
    if ops == [] then j
    else
      var before := Run(j, ops[..|ops| - 1]);
      match Apply(before, ops[|ops| - 1])
      case Ok(after) => after
      case Err(_) => before
  }

  function Mutations(j: Journal, ops: seq<Op>): nat
    decreases |ops|
  {
    if ops == [] then 0
    else
      Mutations(j, ops[..|ops| - 1]) + if Apply(Run(j, ops[..|ops| - 1]), ops[|ops| - 1]).Ok? then 1 else 0
  }

  predicate Names(entries: seq<Entry>, steps: seq<Step>) {
    |entries| == |steps| && forall i :: 0 <= i < |steps| ==> entries[i].stepId == steps[i].id
  }

  /** The times of one entry agree with its status. */
  predicate Stamped(e: Entry) {
    match e.status
    case StepPending => e.started.None? && e.finished.None?
    case StepRunning => e.started.Some? && e.finished.None?
    case StepSucceeded => e.started.Some? && e.finished.Some? && e.started.value <= e.finished.value
    case StepFailed => e.started.Some? && e.finished.Some? && e.started.value <= e.finished.value
    case _ => false
  }

  /** The latest time in an entry. */
  function Latest(e: Entry): nat {
    if e.finished.Some? then e.finished.value else if e.started.Some? then e.started.value else 0
  }

  /** `k` steps succeeded; the next one may be running or failed; the others are pending. */
  predicate Shape(entries: seq<Entry>, k: nat) {
    && k <= |entries|
    && (forall i :: 0 <= i < k ==> entries[i].status == StepSucceeded)
    && (k < |entries| ==> entries[k].status in {StepPending, StepRunning, StepFailed})
    && (forall i :: k < i < |entries| ==> entries[i].status == StepPending)
  }

  /** Steps follow one another in time, and nothing is stamped later than the last update. */
  predicate Ordered(j: Journal) {
    && j.created <= j.updated
    && (forall i :: 0 <= i < |j.entries| ==> Stamped(j.entries[i]) && Latest(j.entries[i]) <= j.updated)
    && (forall i :: 0 < i < |j.entries| && j.entries[i].started.Some? ==>
          j.entries[i - 1].finished.Some? && j.entries[i - 1].finished.value <= j.entries[i].started.value)
  }

  ghost predicate Inv(j: Journal, p: Pipeline) {
    Names(j.entries, p.steps) && Ordered(j) && exists k: nat :: Shape(j.entries, k)
  }

  lemma NewJournalInv(p: Pipeline, now: nat)
    ensures Inv(NewJournal(p, now), p)
  {
    assert Shape(NewJournal(p, now).entries, 0);
  }

  lemma PositionIs(entries: seq<Entry>, steps: seq<Step>, i: nat)
    requires Names(entries, steps) && DistinctSteps(steps) && i < |entries|
    ensures Position(entries, entries[i].stepId) == i
  {
    var k := Position(entries, entries[i].stepId);
    if k < i { assert false; }
  }

  lemma SucceededBelow(entries: seq<Entry>, n: nat, i: nat)
    requires i < n <= |entries| && AllSucceeded(entries[..n])
    ensures entries[i].status == StepSucceeded
  {
    assert entries[..n][i] == entries[i];
  }

  /** A started step is the one after the succeeded prefix. */
  lemma StartsNext(j: Journal, k: nat, id: string, now: nat)
    requires Shape(j.entries, k) && Apply(j, StartStep(id, now)).Ok?
    ensures Position(j.entries, id) == k
  {
    var at := Position(j.entries, id);
    if k < at { SucceededBelow(j.entries, at, k); }
  }

  lemma ApplyKeepsShape(j: Journal, k: nat, op: Op)
    requires Shape(j.entries, k) && Apply(j, op).Ok?
    ensures exists m: nat :: Shape(Apply(j, op).value.entries, m)
  {
    var t := Apply(j, op).value;
    match op
    case Transition(_, _) => assert Shape(t.entries, k);
    case StartStep(id, now) =>
      StartsNext(j, k, id, now);
      assert Shape(t.entries, k);
    case FinishStep(id, succeeded, _, now) =>
      assert Shape(t.entries, if succeeded then k + 1 else k);
  }

  lemma ApplyKeepsOrder(j: Journal, k: nat, op: Op)
    requires Shape(j.entries, k) && Ordered(j) && Apply(j, op).Ok?
    ensures Ordered(Apply(j, op).value)
  {
    match op
    case Transition(_, _) =>
    case StartStep(id, now) => StartsNext(j, k, id, now);
    case FinishStep(_, _, _, _) => FinishKeepsOrder(j, k, op);
  }

  lemma FinishKeepsOrder(j: Journal, k: nat, op: Op)
    requires Shape(j.entries, k) && Ordered(j) && op.FinishStep? && Apply(j, op).Ok?
    ensures Ordered(Apply(j, op).value)
  {
    var at := Position(j.entries, op.id);
    assert at == k && Stamped(j.entries[k]);
  }

  lemma ApplyKeepsInv(j: Journal, p: Pipeline, op: Op)
    requires Inv(j, p) && Apply(j, op).Ok?
    ensures Inv(Apply(j, op).value, p)
    ensures j.updated <= Apply(j, op).value.updated && j.created == Apply(j, op).value.created
  {
    hide Ordered, Shape;
    var k: nat :| Shape(j.entries, k);
    ApplyKeepsShape(j, k, op);
    ApplyKeepsOrder(j, k, op);
  }

  /**
   In every reachable execution: the step ids are the pipeline's, some number of steps succeeded, the
   next one is pending, running or failed, the rest is pending; and all times are in order.
   */
  lemma {:induction false} RunKeepsInv(p: Pipeline, now: nat, ops: seq<Op>)
    ensures Inv(Run(NewJournal(p, now), ops), p)
    decreases |ops|
  {
    if ops == [] {
      NewJournalInv(p, now);
    } else {
      var front := ops[..|ops| - 1];
      RunKeepsInv(p, now, front);
      var before := Run(NewJournal(p, now), front);
      if Apply(before, ops[|ops| - 1]).Ok? {
        ApplyKeepsInv(before, p, ops[|ops| - 1]);
      }
    }
  }

  function Reversed(ids: seq<string>): seq<string> {
    if ids == [] then [] else Reversed(ids[1..]) + [ids[0]]
  }

  function StepIds(steps: seq<Step>): seq<string> {
    seq(|steps|, i requires 0 <= i < |steps| => steps[i].id)
  }

  lemma {:induction false} RecoveryIsReversedPrefix(entries: seq<Entry>, steps: seq<Step>, k: nat)
    requires Names(entries, steps) && Shape(entries, k)
    ensures RecoveryOrder(entries) == Reversed(StepIds(steps[..k]))
    decreases |entries|
  {
    if entries != [] {
      var n := |entries| - 1;
      if k <= n {
        RecoveryIsReversedPrefix(entries[..n], steps[..n], k);
        assert steps[..n][..k] == steps[..k];
      } else {
        RecoveryIsReversedPrefix(entries[..n], steps[..n], n);
        assert steps[..n][..n] == steps[..n];
        assert StepIds(steps[..k]) == StepIds(steps[..n]) + [steps[n].id];
        ReversedSnoc(StepIds(steps[..n]), steps[n].id);
      }
    }
  }

  lemma {:induction false} ReversedSnoc(ids: seq<string>, id: string)
    ensures Reversed(ids + [id]) == [id] + Reversed(ids)
  {
    if ids != [] {
      ReversedSnoc(ids[1..], id);
      assert (ids + [id])[1..] == ids[1..] + [id];
    }
  }

  /** Recovery undoes exactly the steps that succeeded, last first. */
  lemma RecoveryOfRuns(p: Pipeline, now: nat, ops: seq<Op>)
    ensures var j := Run(NewJournal(p, now), ops);
      exists k: nat :: k <= |p.steps| && Shape(j.entries, k)
        && RecoveryOrder(j.entries) == Reversed(StepIds(p.steps[..k]))
  {
    var j := Run(NewJournal(p, now), ops);
    RunKeepsInv(p, now, ops);
    var k: nat :| Shape(j.entries, k);
    RecoveryIsReversedPrefix(j.entries, p.steps, k);
  }

  /** State is committed only after every other step has succeeded. */
  lemma CommitStartsLast(p: Pipeline, now: nat, ops: seq<Op>, id: string, at: nat)
    requires ValidPipeline(p) && id == p.steps[|p.steps| - 1].id
    requires Apply(Run(NewJournal(p, now), ops), StartStep(id, at)).Ok?
    ensures p.steps[|p.steps| - 1].action.CommitState?
    ensures |Run(NewJournal(p, now), ops).entries| == |p.steps|
    ensures AllSucceeded(Run(NewJournal(p, now), ops).entries[..|p.steps| - 1])
  {
    hide Ordered, ValidStep, Shape, Run;
    var j := Run(NewJournal(p, now), ops);
    RunKeepsInv(p, now, ops);
    PositionIs(j.entries, p.steps, |p.steps| - 1);
  }

  // ----- how long a run can be -----

  function TransitionsLeft(s: Status): nat {
    match s
    case Planned => 4
    case Running => 3
    case Failed => 2
    case Recovering => 1
    case _ => 0
  }

  function EntryLeft(e: Entry): nat {
    if e.status == StepPending then 2 else if e.status == StepRunning then 1 else 0
  }

  function EntriesLeft(entries: seq<Entry>): nat {
    if entries == [] then 0 else EntryLeft(entries[0]) + EntriesLeft(entries[1..])
  }

  function Left(j: Journal): nat {
    TransitionsLeft(j.status) + EntriesLeft(j.entries)
  }

  lemma {:induction false} EntriesLeftUpdate(entries: seq<Entry>, k: nat, e: Entry)
    requires k < |entries|
    ensures EntriesLeft(entries[k := e]) == EntriesLeft(entries) - EntryLeft(entries[k]) + EntryLeft(e)
  {
    if k == 0 {
      assert entries[0 := e][1..] == entries[1..];
    } else {
      EntriesLeftUpdate(entries[1..], k - 1, e);
      assert entries[k := e][1..] == entries[1..][k - 1 := e];
    }
  }

  lemma {:induction false} EntriesLeftNew(entries: seq<Entry>)
    requires forall i :: 0 <= i < |entries| ==> entries[i].status == StepPending
    ensures EntriesLeft(entries) == 2 * |entries|
  {
    if entries != [] {
      EntriesLeftNew(entries[1..]);
    }
  }

  lemma ApplyUsesUp(j: Journal, op: Op)
    requires Apply(j, op).Ok?
    ensures Left(Apply(j, op).value) < Left(j)
  {
    match op
    case Transition(_, _) =>
    case StartStep(id, now) =>
      var k := Position(j.entries, id);
      EntriesLeftUpdate(j.entries, k, Apply(j, op).value.entries[k]);
    case FinishStep(id, _, _, _) =>
      var k := Position(j.entries, id);
      EntriesLeftUpdate(j.entries, k, Apply(j, op).value.entries[k]);
  }

  lemma {:induction false} MutationsBounded(j: Journal, ops: seq<Op>)
    ensures Mutations(j, ops) + Left(Run(j, ops)) <= Left(j)
    decreases |ops|
  {
    if ops != [] {
      var front := ops[..|ops| - 1];
      MutationsBounded(j, front);
      if Apply(Run(j, front), ops[|ops| - 1]).Ok? {
        ApplyUsesUp(Run(j, front), ops[|ops| - 1]);
      }
    }
  }

  /** A run over n steps has at most 4 + 2n successful mutations. */
  lemma RunLength(p: Pipeline, now: nat, ops: seq<Op>)
    ensures Mutations(NewJournal(p, now), ops) <= 4 + 2 * |p.steps|
  {
    MutationsBounded(NewJournal(p, now), ops);
    EntriesLeftNew(NewEntries(p.steps));
  }

  /** Time never goes backwards along a run. */
  lemma {:induction false} TimeIsMonotone(j: Journal, p: Pipeline, ops: seq<Op>)
    requires Inv(j, p)
    ensures Inv(Run(j, ops), p) && j.updated <= Run(j, ops).updated
    decreases |ops|
  {
    if ops != [] {
      var front := ops[..|ops| - 1];
      TimeIsMonotone(j, p, front);
      if Apply(Run(j, front), ops[|ops| - 1]).Ok? {
        ApplyKeepsInv(Run(j, front), p, ops[|ops| - 1]);
      }
    }
  }

  /** The pipeline's status says nothing about its steps: it can succeed before any of them ran. */
  lemma SucceededWithoutSteps(p: Pipeline, now: nat)
    ensures var j := Run(NewJournal(p, now), [Transition(Running, now), Transition(Succeeded, now)]);
      j.status == Succeeded && j.entries == NewEntries(p.steps)
  {
    var ops := [Transition(Running, now), Transition(Succeeded, now)];
    assert ops[..1] == [Transition(Running, now)] && ops[..1][..0] == [];
    assert Run(NewJournal(p, now), ops[..1]).status == Running;
  }

  // ----- what became of a step, and of the execution -----

  /** The run accepted a start of this step. */
  predicate Begun(j: Journal, ops: seq<Op>, id: string)
    decreases |ops|
  {
    ops != [] &&
    var front, op := ops[..|ops| - 1], ops[|ops| - 1];
    Begun(j, front, id) || (op.StartStep? && op.id == id && Apply(Run(j, front), op).Ok?)
  }

  /** The run accepted this outcome of the step. */
  predicate Reported(j: Journal, ops: seq<Op>, id: string, succeeded: bool)
    decreases |ops|
  {
    ops != [] &&
    var front, op := ops[..|ops| - 1], ops[|ops| - 1];
    || Reported(j, front, id, succeeded)
    || (op.FinishStep? && op.id == id && op.succeeded == succeeded && Apply(Run(j, front), op).Ok?)
  }

  /** The message of the outcome that the run accepted for the step. */
  function Message(j: Journal, ops: seq<Op>, id: string): Option<string>
    decreases |ops|
  {
    if ops == [] then None
    else
      var front, op := ops[..|ops| - 1], ops[|ops| - 1];
      if op.FinishStep? && op.id == id && Apply(Run(j, front), op).Ok? then op.message else Message(j, front, id)
  }

  /** What the reports about a step make of it. */
  predicate Tells(e: Entry, begun: bool, succeeded: bool, failed: bool, message: Option<string>) {
    && e.message == message
    && (e.status == StepSucceeded <==> succeeded)
    && (e.status == StepFailed <==> failed)
    && (e.status == StepRunning <==> begun && !succeeded && !failed)
    && (e.status == StepPending <==> !begun)
  }

  lemma ApplyTells(j: Journal, steps: seq<Step>, op: Op, i: nat, begun: bool, succeeded: bool, failed: bool,
      message: Option<string>)
    requires Names(j.entries, steps) && DistinctSteps(steps) && i < |steps| && Apply(j, op).Ok?
    requires Tells(j.entries[i], begun, succeeded, failed, message)
    ensures
      var start := op.StartStep? && op.id == steps[i].id;
      var finish := op.FinishStep? && op.id == steps[i].id;
      Tells(Apply(j, op).value.entries[i], begun || start, succeeded || (finish && op.succeeded),
        failed || (finish && !op.succeeded), if finish then op.message else message)
  {
    PositionIs(j.entries, steps, i);
  }

  /**
   In every run over distinct steps, an entry is StepSucceeded if and only if an accepted report said that its
   step succeeded, StepFailed if and only if one said that it failed, running if and only if it was started and
   not reported, and carries the message of its report.
   */
  lemma {:induction false} StatusTellsReports(p: Pipeline, now: nat, ops: seq<Op>, i: nat)
    requires DistinctSteps(p.steps) && i < |p.steps|
    ensures var j, id := NewJournal(p, now), p.steps[i].id;
      && i < |Run(j, ops).entries|
      && Tells(Run(j, ops).entries[i], Begun(j, ops, id), Reported(j, ops, id, true), Reported(j, ops, id, false),
           Message(j, ops, id))
    decreases |ops|
  {
    hide Inv, Tells, DistinctSteps;
    var j, id := NewJournal(p, now), p.steps[i].id;
    RunKeepsInv(p, now, ops);
    NamesNow(Run(j, ops), p);
    if ops == [] {
      NewTells(p, now, i);
    } else {
      var front, op := ops[..|ops| - 1], ops[|ops| - 1];
      StatusTellsReports(p, now, front, i);
      RunKeepsInv(p, now, front);
      NamesNow(Run(j, front), p);
      if Apply(Run(j, front), op).Ok? {
        hide Run;
        ApplyTells(Run(j, front), p.steps, op, i, Begun(j, front, id), Reported(j, front, id, true),
          Reported(j, front, id, false), Message(j, front, id));
      }
    }
  }

  lemma NamesNow(j: Journal, p: Pipeline)
    requires Inv(j, p)
    ensures Names(j.entries, p.steps)
  {
    hide Ordered, Shape;
  }

  lemma NewTells(p: Pipeline, now: nat, i: nat)
    requires i < |p.steps|
    ensures Tells(NewJournal(p, now).entries[i], false, false, false, None)
  {
  }

  /** The transitions that a run accepted, in order. */
  function Moves(j: Journal, ops: seq<Op>): seq<Status>
    decreases |ops|
  {
    if ops == [] then []
    else
      var front, op := ops[..|ops| - 1], ops[|ops| - 1];
      Moves(j, front) + if op.Transition? && Apply(Run(j, front), op).Ok? then [op.next] else []
  }

  /** An execution succeeds, or fails and recovers or fails to; it goes through these statuses and no others. */
  lemma {:induction false} MovesOfRuns(p: Pipeline, now: nat, ops: seq<Op>)
    ensures var j := NewJournal(p, now);
      Moves(j, ops) == match Run(j, ops).status
                       case Planned => []
                       case Running => [Running]
                       case Succeeded => [Running, Succeeded]
                       case Failed => [Running, Failed]
                       case Recovering => [Running, Failed, Recovering]
                       case Recovered => [Running, Failed, Recovering, Recovered]
                       case RecoveryFailed => [Running, Failed, Recovering, RecoveryFailed]
    decreases |ops|
  {
    if ops != [] {
      var j, front, op := NewJournal(p, now), ops[..|ops| - 1], ops[|ops| - 1];
      MovesOfRuns(p, now, front);
      if Apply(Run(j, front), op).Ok? { StatusMoves(Run(j, front), op); }
      hide Apply;
    }
  }

  /** Only transitions change the status, along the allowed pairs. */
  lemma StatusMoves(j: Journal, op: Op)
    requires Apply(j, op).Ok?
    ensures Apply(j, op).value.status == if op.Transition? then op.next else j.status
    ensures op.Transition? ==> Allowed(j.status, op.next)
  {
  }
}
