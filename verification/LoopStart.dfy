/** From the claim of a task to the start of its scheduling loop
    (app/tasks/runner.py, TaskRunner.run): what users and the supervisor may
    have left in the record by the time the worker's loop begins. */
module LoopStart {
  import opened Options
  import opened TaskRows
  import opened Lifecycle
  import opened TaskSafety
  import Act = CheckActivity
  import Sched = CheckScheduler

  // ---- what a queued task's record holds ---------------------------------------------

  predicate Unstarted(k: Act.Check) {
    !k.retryRequested && (k.phase.Pending? || k.phase.Canceled?) && (k.cancelRequested <==> k.phase.Canceled?)
  }

  ghost predicate AllUnstarted(v: Act.Record) { forall c :: c in v.checks ==> Unstarted(v.checks[c]) }

  ghost predicate QueueOk(r: Row) {
    && (Executing(r) && r.activity.Some? ==> r.activity.value.token.Some?)
    && (r.status.Queued? ==> AllUnstarted(View(r)))
    && (Executing(r) ==> Act.RecordOk(View(r)))
  }

  lemma UserKeepsQueueOk(r: Row, c: UserChange)
    requires RowOk(r) && QueueOk(r)
    ensures QueueOk(ApplyUser(r, c))
  {
    if Executing(r) { UserAdvances(r, c); } else { UserKeepsQueue(r, c); }
  }

  lemma UserKeepsQueue(r: Row, c: UserChange)
    requires RowOk(r) && QueueOk(r) && !Executing(r)
    ensures QueueOk(ApplyUser(r, c))
  {
  }

  lemma WorkerKeepsQueueOk(r: Row, k: Act.Token, c: WorkerChange)
    requires RowOk(r) && QueueOk(r)
    ensures QueueOk(ApplyWorker(r, k, c))
  {
    if !Owned(r, k) { StaleChangeIsPowerless(r, k, c); }
    else if c.WorkerActivity? { OpAdvances(View(r), c.op); }
  }

  lemma SweepKeepsQueueOk(r: Row, now: int, managed: bool, k: Option<Act.Token>)
    requires RowOk(r) && QueueOk(r)
    ensures QueueOk(Sweep(r, now, managed)) && QueueOk(SweepThenClaim(r, now, managed, k))
  {
  }

  lemma EventKeepsQueueOk(r: Row, e: Event)
    requires RowOk(r) && QueueOk(r)
    ensures QueueOk(ApplyEvent(r, e))
  {
    match e
    case ByUser(c) => UserKeepsQueueOk(r, c);
    case ByWorker(k, c) => WorkerKeepsQueueOk(r, k, c);
    case Swept(now, managed, k) => SweepKeepsQueueOk(r, now, managed, k);
    case _ =>
  }

  // ---- what the claim and the worker's preparation leave ------------------------------

  predicate BeginsOk(k: Act.Check) {
    Sched.Startable(k) && Act.CheckOk(k) && (k.retryRequested ==> Act.Retryable(k.phase))
  }

  /** No check of the claim has been started. */
  ghost predicate Begins(r: Row) { AllBegin(View(r)) }

  ghost predicate AllBegin(v: Act.Record) { forall c :: c in v.checks ==> BeginsOk(v.checks[c]) }

  /** Until its loop starts, the worker with claim k only initializes the record. */
  ghost predicate OnlyPrepares(w: World, s: Step, t: TaskId, k: Act.Token) {
    s.Work? && s.process in w.live && w.live[s.process].task == t && w.live[s.process].token == k ==>
      !s.workerChange.WorkerClearActivity? && (s.workerChange.WorkerActivity? ==> s.workerChange.op.Initialize?)
  }

  ghost predicate Prepares(w: World, steps: seq<Step>, t: TaskId, k: Act.Token)
    decreases |steps|
  {
    steps == [] || (OnlyPrepares(w, steps[0], t, k) && Prepares(Apply(w, steps[0]), steps[1..], t, k))
  }

  lemma CancelKeepsBegins(v: Act.Record, code: Act.Code, execution: Option<nat>, selected: set<Act.Code>)
    requires AllBegin(v)
    ensures AllBegin(Act.RequestCancel(v, code, execution, selected).0)
  {
  }

  lemma InitializeKeepsBegins(v: Act.Record, phase: Act.TaskPhase, checks: map<Act.Code, nat>)
    requires AllBegin(v)
    ensures AllBegin(Act.Initialize(v, phase, checks))
  {
  }

  lemma UserKeepsBegins(r: Row, c: UserChange)
    requires r.token.Some? && ApplyUser(r, c).token == r.token && Begins(r)
    ensures Begins(ApplyUser(r, c))
    ensures Selected(ApplyUser(r, c)) <= Selected(r) + View(ApplyUser(r, c)).checks.Keys
  {
    match c
    case UserCancelCheck(_, code, execution) => CancelKeepsBegins(View(r), code, execution, Selected(r));
    case UserRetryCheck(code, execution) => RetryKeepsBegins(r, code, execution);
    case _ =>
  }

  lemma RetryKeepsBegins(r: Row, code: Act.Code, execution: nat)
    requires r.token.Some? && RetryCheck(r, code, execution).token == r.token && Begins(r)
    ensures Begins(RetryCheck(r, code, execution))
    ensures Selected(RetryCheck(r, code, execution)) <= Selected(r) + View(RetryCheck(r, code, execution)).checks.Keys
  {
  }

  predicate Preparation(e: Event, k: Act.Token) {
    e.ByWorker? && e.worker == k ==> !e.work.WorkerClearActivity? && (e.work.WorkerActivity? ==> e.work.op.Initialize?)
  }

  lemma WorkerKeepsBegins(r: Row, worker: Act.Token, c: WorkerChange, k: Act.Token)
    requires Owned(r, k) && Owned(ApplyWorker(r, worker, c), k) && Begins(r) && Preparation(ByWorker(worker, c), k)
    ensures Begins(ApplyWorker(r, worker, c)) && Selected(ApplyWorker(r, worker, c)) == Selected(r)
  {
    if c.WorkerActivity? && c.op.Initialize? { InitializeKeepsBegins(View(r), c.op.phase, c.op.checks); }
  }

  lemma EventKeepsBegins(r: Row, e: Event, k: Act.Token, bound: nat)
    requires RowOk(r) && Owned(r, k) && Owned(ApplyEvent(r, e), k) && Begins(r) && Preparation(e, k)
    requires k < bound && (Granted(e).Some? ==> bound <= Granted(e).value)
    ensures Begins(ApplyEvent(r, e))
    ensures Selected(ApplyEvent(r, e)) <= Selected(r) + View(ApplyEvent(r, e)).checks.Keys
  {
    match e
    case ByUser(c) => UserKeepsBegins(r, c);
    case ByWorker(worker, c) => WorkerKeepsBegins(r, worker, c, k);
    case _ =>
  }

  lemma ClaimBegins(r: Row, now: int, managed: bool, k: Act.Token)
    requires RowOk(r) && QueueOk(r) && TokensBelow(r, k) && Owned(SweepThenClaim(r, now, managed, Some(k)), k)
    ensures Begins(SweepThenClaim(r, now, managed, Some(k)))
  {
    SweepKeepsQueueOk(r, now, managed, None);
  }

  lemma EventBegins(r: Row, e: Event, k: Act.Token, bound: nat)
    requires RowOk(r) && QueueOk(r) && TokensBelow(r, bound) && (Granted(e).Some? ==> bound <= Granted(e).value)
    requires !Owned(r, k) && Owned(ApplyEvent(r, e), k)
    ensures Begins(ApplyEvent(r, e))
  {
    EventKeepsRow(r, e, if Granted(e).Some? then Granted(e).value + 1 else bound);
    ClaimBegins(r, e.now, e.managed, k);
  }

  // ---- over runs ----------------------------------------------------------------------

  ghost predicate QueueInv(w: World) { RowsInv(w) && forall t :: t in w.rows ==> QueueOk(w.rows[t]) }

  lemma QueueInvStep(w: World, s: Step)
    requires QueueInv(w)
    ensures QueueInv(Apply(w, s))
  {
    RowsInvStep(w, s);
    StepKeepsTable(w, s);
    forall t | t in Apply(w, s).rows ensures QueueOk(Apply(w, s).rows[t]) {
      if t in w.rows {
        StepActsByEvent(w, s, t);
        EventKeepsQueueOk(w.rows[t], EventOf(w, s, t));
      }
    }
  }

  lemma {:induction false} QueueInvHolds(w: World, steps: seq<Step>)
    requires QueueInv(w)
    ensures QueueInv(Run(w, steps))
    decreases |steps|
  {
    if steps != [] {
      QueueInvStep(w, steps[0]);
      QueueInvHolds(Apply(w, steps[0]), steps[1..]);
    }
  }

  /** In every reachable state the record of a waiting or executing task shows
      each cancel request as canceling or canceled, and nothing else as
      canceling; no check of a waiting task was started or asks for a retry. */
  lemma ReachableRecordsOk(limits: Limits, now: int, steps: seq<Step>, t: TaskId)
    requires t in Run(Init(limits, now), steps).rows
    ensures var r := Run(Init(limits, now), steps).rows[t];
      && (Active(r) ==> Act.RecordOk(View(r)))
      && (r.status.Queued? ==> AllUnstarted(View(r)))
  {
    QueueInvHolds(Init(limits, now), steps);
    assert QueueOk(Run(Init(limits, now), steps).rows[t]);
  }

  lemma EventPrepares(w: World, s: Step, t: TaskId, k: Act.Token)
    requires OnlyPrepares(w, s, t, k)
    ensures Preparation(EventOf(w, s, t), k)
  {
  }

  /** One step while the claim is held. */
  lemma StepKeepsBegins(w: World, s: Step, t: TaskId, k: Act.Token)
    requires RowsInv(w) && OnlyPrepares(w, s, t, k) && Holds(w, t, k) && Holds(Apply(w, s), t, k) && Begins(w.rows[t])
    ensures Begins(Apply(w, s).rows[t])
    ensures Selected(Apply(w, s).rows[t]) <= Selected(w.rows[t]) + View(Apply(w, s).rows[t]).checks.Keys
    ensures View(w.rows[t]).checks.Keys <= View(Apply(w, s).rows[t]).checks.Keys
  {
    StepActsByEvent(w, s, t);
    EventPrepares(w, s, t, k);
    EventKeepsBegins(w.rows[t], EventOf(w, s, t), k, w.nextToken);
    EventAdvances(w.rows[t], EventOf(w, s, t), k, w.nextToken);
  }

  lemma HeldWasThere(w: World, s: Step, t: TaskId, k: Act.Token)
    requires Holds(Apply(w, s), t, k) && RowsInv(w)
    ensures t in w.rows && t < w.nextTask
  {
    StepKeepsTable(w, s);
  }

  /** The step that hands out the claim. */
  lemma StepBegins(w: World, s: Step, t: TaskId, k: Act.Token)
    requires QueueInv(w) && !Holds(w, t, k) && Holds(Apply(w, s), t, k)
    ensures Begins(Apply(w, s).rows[t])
  {
    HeldWasThere(w, s, t, k);
    StepActsByEvent(w, s, t);
    EventBegins(w.rows[t], EventOf(w, s, t), k, w.nextToken);
  }

  lemma {:induction false} BeginsHolds(w: World, steps: seq<Step>, t: TaskId, k: Act.Token)
    requires QueueInv(w) && Prepares(w, steps, t, k) && (Holds(w, t, k) ==> Begins(w.rows[t]))
    ensures Holds(Run(w, steps), t, k) ==> Begins(Run(w, steps).rows[t])
    decreases |steps|
  {
    if steps != [] {
      var v := Apply(w, steps[0]);
      QueueInvStep(w, steps[0]);
      if Holds(v, t, k) {
        if Holds(w, t, k) { StepKeepsBegins(w, steps[0], t, k); } else { StepBegins(w, steps[0], t, k); }
      }
      BeginsHolds(v, steps[1..], t, k);
    }
  }

  /** What users add to the scope meanwhile they also record. */
  lemma {:induction false} ScopeIsRecorded(w: World, steps: seq<Step>, t: TaskId, k: Act.Token)
    requires QueueInv(w) && Prepares(w, steps, t, k)
    requires Holds(w, t, k) && Begins(w.rows[t]) && Holds(Run(w, steps), t, k)
    ensures Selected(Run(w, steps).rows[t]) <= Selected(w.rows[t]) + View(Run(w, steps).rows[t]).checks.Keys
    ensures View(w.rows[t]).checks.Keys <= View(Run(w, steps).rows[t]).checks.Keys
    decreases |steps|
  {
    if steps != [] {
      var v := Apply(w, steps[0]);
      QueueInvStep(w, steps[0]);
      RowsInvStep(w, steps[0]);
      if !Holds(v, t, k) { LostTokenStaysLost(v, steps[1..], t, k); }
      StepKeepsBegins(w, steps[0], t, k);
      ScopeIsRecorded(v, steps[1..], t, k);
    }
  }

  // ---- the main result ------------------------------------------------------------------

  /** The codes of the row a worker read, each once (app/tasks/selection.py). */
  ghost predicate ItemsOf(items: seq<Act.Code>, r: Row) { Distinct(items) && forall c :: c in items <==> c in Selected(r) }

  function Begun(r: Row, k: Act.Token, executions: map<Act.Code, nat>): Row {
    ChangeActivity(r, k, ActivityOp.Initialize(Act.Inspecting, executions))
  }

  lemma BegunIsStart(r: Row, read: Row, k: Act.Token, items: seq<Act.Code>, executions: map<Act.Code, nat>)
    requires r.status.Running? && Owned(r, k) && Begins(r) && ItemsOf(items, read)
    requires forall c :: c in executions <==> c in items
    requires Selected(r) <= Selected(read) + View(r).checks.Keys
    ensures Sched.StartOk(View(Begun(r, k, executions)), items, Selected(r))
  {
    InitializeKeepsBegins(View(r), Act.Inspecting, executions);
    var v := View(Begun(r, k, executions));
    assert v == Act.Initialize(View(r), Act.Inspecting, executions);
    forall c | c in v.checks ensures BeginsOk(v.checks[c]) {}
  }

  /** However users, the supervisor and other workers interleave, from an empty
      system to the moment a worker reads its row and on to the moment its
      scheduling loop begins: the loop begins as CheckScheduler.StartOk asks. */
  lemma EveryLoopStartsOk(limits: Limits, now: int, before: seq<Step>, after: seq<Step>, t: TaskId, k: Act.Token,
                          items: seq<Act.Code>, executions: map<Act.Code, nat>)
    requires var w := Run(Init(limits, now), before);
      && Prepares(Init(limits, now), before, t, k) && Prepares(w, after, t, k)
      && Holds(w, t, k) && ItemsOf(items, w.rows[t])
      && Holds(Run(w, after), t, k) && Run(w, after).rows[t].status.Running?
    requires forall c :: c in executions <==> c in items
    ensures var r := Run(Run(Init(limits, now), before), after).rows[t];
      Sched.StartOk(View(Begun(r, k, executions)), items, Selected(r))
  {
    var w := Run(Init(limits, now), before);
    QueueInvHolds(Init(limits, now), before);
    BeginsHolds(Init(limits, now), before, t, k);
    BeginsHolds(w, after, t, k);
    ScopeIsRecorded(w, after, t, k);
    BegunIsStart(Run(w, after).rows[t], w.rows[t], k, items, executions);
  }

  // ---- users during the loop ---------------------------------------------------------------

  /** Single-check cancels and retries of the running row are the loop's own
      user steps: same answer, same record. */
  lemma UsersActOnTheLoop(r: Row, k: Act.Token, s: Sched.State, code: Act.Code, execution: Option<nat>, expected: nat)
    requires r.status.Running? && Owned(r, k) && s.owned && s.record == View(r)
    requires Selected(r) <= s.record.checks.Keys && s.selected <= s.record.checks.Keys
    ensures View(CancelCheck(r, Some(k), code, execution)) == Sched.Apply(s, Sched.UserCancel(code, execution)).record
    ensures RetryAccepted(r, code, expected) ==> Sched.RetryAccepted(s, code, expected, RetryItem(r, code))
    ensures RetryAccepted(r, code, expected) ==>
      View(RetryCheck(r, code, expected)) == Sched.Apply(s, Sched.UserRetry(code, expected, RetryItem(r, code))).record
    ensures !RetryAccepted(r, code, expected) ==> View(RetryCheck(r, code, expected)) == s.record
  {
  }

  /** A retry that comes between the claim and the worker's read: check B failed
      earlier, is outside the scope, and is added to it while still failed. */
  lemma RetryBeforeTheLoop(results: seq<CheckResult>, k: Act.Token)
    requires results == [CheckResult("A", 0, false, true, false), CheckResult("B", 0, false, true, false)]
    ensures var r := Row("ann", 0, false, ["A", "B"], Running, false, Some(k), Some(90), Some(["A"]), Some(results), None,
                         Some(Act.Record(Some(k), Some(Act.Preparing), map["A" := Act.Fresh(1)])));
      var q := RetryCheck(r, "B", 0);
      var v := View(Begun(q, k, map["A" := 1, "B" := 1]));
      && q.retryCodes == Some(["A", "B"])
      && v.checks == map["A" := Act.Fresh(1), "B" := Act.Check(Act.Failed, 0, false, true)]
      && Sched.StartOk(v, ["A", "B"], Selected(q))
  {
    var r := Row("ann", 0, false, ["A", "B"], Running, false, Some(k), Some(90), Some(["A"]), Some(results), None,
                 Some(Act.Record(Some(k), Some(Act.Preparing), map["A" := Act.Fresh(1)])));
    assert FirstResult(results[1..], "B") == Some(results[1]);
    assert RetryItem(r, "B") == Act.Check(Act.Failed, 0, false, false);
    var q := RetryCheck(r, "B", 0);
    assert r.snapshot[1] == "B" && RetryAccepted(r, "B", 0);
    assert "B" !in r.retryCodes.value && ["A"] + ["B"] == ["A", "B"];
    assert View(q).checks == map["A" := Act.Fresh(1), "B" := Act.Check(Act.Failed, 0, false, true)];
    var v := View(Begun(q, k, map["A" := 1, "B" := 1]));
    assert v.checks == map["A" := Act.Fresh(1), "B" := Act.Check(Act.Failed, 0, false, true)];
  }
}
