/** What whole runs do to one task: tokens fence stale workers, a cancel
    request is never lost, and check items only move forward. */
module TaskSafety {
  import opened Options
  import opened TaskRows
  import opened Lifecycle
  import Act = CheckActivity

  // ---- one task's share of a step ---------------------------------------------

  datatype Event =
    | Untouched
    | Moved(owner: string)
    | ByUser(change: UserChange)
    | ByWorker(worker: Act.Token, work: WorkerChange)
    | Renewed(holder: Act.Token, until: int)
    | Recovered(entry: Act.Token, decision: Decision)
    | Swept(now: int, managed: bool, token: Option<Act.Token>)

  function ApplyEvent(r: Row, e: Event): Row {
    match e
    case Untouched => r
    case Moved(owner) => r.(owner := owner)
    case ByUser(c) => ApplyUser(r, c)
    case ByWorker(k, c) => ApplyWorker(r, k, c)
    case Renewed(k, until) => Renew(r, k, until)
    case Recovered(k, d) => ApplyDecision(r, k, d)
    case Swept(now, managed, k) => SweepThenClaim(r, now, managed, k)
  }

  /** The token an event hands to the task. */
  function Granted(e: Event): Option<Act.Token> { if e.Swept? then e.token else None }

  ghost predicate Claims(w: World, s: Step) { s.ClaimTasks? && CanClaim(w, s.chosen) }

  ghost function EventOf(w: World, s: Step, t: TaskId): Event {
    if s.User? && s.task == t then ByUser(s.userChange)
    else if s.MigrateOwner? && t in w.rows && w.rows[t].owner == s.from then Moved(s.to)
    else if s.Work? && s.process in w.live && w.live[s.process].permitted && w.live[s.process].task == t then
      ByWorker(w.live[s.process].token, s.workerChange)
    else if Claims(w, s) then
      Swept(w.now, t in ActiveTasks(w), TokenFor(w, s.chosen, t))
    else if w.sup.Serving? && s.RenewLease? && s.task == t && t in w.sup.active then
      Renewed(w.sup.active[t].token, w.now + LEASE_SECONDS)
    else if w.sup.Serving? && s.SpawnFails? && w.sup.claimed != [] && w.sup.launch.Idle? && w.sup.reaping.None? && w.sup.claimed[0].task == t then
      Recovered(w.sup.claimed[0].token, s.found)
    else if w.sup.Serving? && s.ReapWrite? && w.sup.reaping.Some? && w.sup.reaping.value.0 == t && t in w.sup.active then
      Recovered(w.sup.active[t].token, w.sup.reaping.value.1)
    else if w.sup.Restoring? && s.RestoreWrite? && w.sup.reading.Some? && w.sup.reading.value.0.task == t then
      Recovered(w.sup.reading.value.0.token, w.sup.reading.value.1)
    else Untouched
  }

  lemma EnvironmentActsByEvent(w: World, s: Step, t: TaskId)
    requires IsEnvironment(s) && t in w.rows && t < w.nextTask && t in Apply(w, s).rows
    ensures Apply(w, s).rows[t] == ApplyEvent(w.rows[t], EventOf(w, s, t)) && Granted(EventOf(w, s, t)) == None
  {
  }

  lemma ClaimActsByEvent(w: World, s: Step, t: TaskId)
    requires Claims(w, s) && t in w.rows
    ensures t in Apply(w, s).rows && Apply(w, s).rows[t] == ApplyEvent(w.rows[t], EventOf(w, s, t))
    ensures var k := Granted(EventOf(w, s, t)); k.Some? ==> w.nextToken <= k.value < Apply(w, s).nextToken
  {
  }

  lemma ServingActsByEvent(w: World, s: Step, t: TaskId)
    requires w.sup.Serving? && !IsEnvironment(s) && !Claims(w, s) && t in w.rows
    ensures t in Apply(w, s).rows && Apply(w, s).rows[t] == ApplyEvent(w.rows[t], EventOf(w, s, t)) && Granted(EventOf(w, s, t)) == None
  {
    assert s.ClaimTasks? ==> Apply(w, s) == w;
  }

  lemma OfflineActsByEvent(w: World, s: Step, t: TaskId)
    requires !w.sup.Serving? && !IsEnvironment(s) && t in w.rows
    ensures t in Apply(w, s).rows && Apply(w, s).rows[t] == ApplyEvent(w.rows[t], EventOf(w, s, t)) && Granted(EventOf(w, s, t)) == None
  {
  }

  /** Every step acts on a task it leaves in the table as that task's own event. */
  lemma StepActsByEvent(w: World, s: Step, t: TaskId)
    requires t in w.rows && t < w.nextTask && t in Apply(w, s).rows
    ensures Apply(w, s).rows[t] == ApplyEvent(w.rows[t], EventOf(w, s, t))
    ensures var k := Granted(EventOf(w, s, t)); k.Some? ==> w.nextToken <= k.value < Apply(w, s).nextToken
  {
    if IsEnvironment(s) { EnvironmentActsByEvent(w, s, t); }
    else if Claims(w, s) { ClaimActsByEvent(w, s, t); }
    else if w.sup.Serving? { ServingActsByEvent(w, s, t); }
    else { OfflineActsByEvent(w, s, t); }
  }

  function NewRow(s: Step): Row
    requires s.Submit?
  {
    Row(s.owner, s.createdAt, s.media, s.snapshot, Queued, false, None, None, None, None, None, None)
  }

  /** What a step may do to the table and its counters. */
  ghost predicate TableGrows(w: World, s: Step, v: World) {
    && w.nextTask <= v.nextTask && w.nextToken <= v.nextToken
    && (forall t :: t in v.rows && t !in w.rows ==>
          s.Submit? && t == w.nextTask && v.nextTask == w.nextTask + 1 && v.rows[t] == NewRow(s))
    && (s.Submit? ==> v.nextTask == w.nextTask + 1 && forall t :: t in v.rows && t < w.nextTask ==> t in w.rows)
  }

  lemma EnvironmentKeepsTable(w: World, s: Step)
    requires IsEnvironment(s)
    ensures TableGrows(w, s, Apply(w, s))
  {
  }

  lemma ServingKeepsTable(w: World, s: Step)
    requires !IsEnvironment(s) && w.sup.Serving?
    ensures TableGrows(w, s, Apply(w, s))
  {
  }

  lemma OfflineKeepsTable(w: World, s: Step)
    requires !IsEnvironment(s) && !w.sup.Serving?
    ensures TableGrows(w, s, Apply(w, s))
  {
  }

  /** Tasks appear only by submission, and the two counters never go back. */
  lemma StepKeepsTable(w: World, s: Step)
    ensures TableGrows(w, s, Apply(w, s))
  {
    if IsEnvironment(s) { EnvironmentKeepsTable(w, s); }
    else if w.sup.Serving? { ServingKeepsTable(w, s); }
    else { OfflineKeepsTable(w, s); }
  }

  // ---- rows and tokens ---------------------------------------------------------

  ghost predicate RowsInv(w: World) {
    forall t :: t in w.rows ==> t < w.nextTask && RowOk(w.rows[t]) && TokensBelow(w.rows[t], w.nextToken)
  }

  lemma SweepKeepsRowOk(r: Row, now: int, managed: bool, bound: nat)
    requires RowOk(r) && TokensBelow(r, bound)
    ensures var q := Sweep(r, now, managed); RowOk(q) && TokensBelow(q, bound) && (q.token == r.token || q.token == None)
    ensures managed || r.status.Queued? ==> Sweep(r, now, managed).status == r.status
  {
  }

  lemma ClaimKeepsRowOk(r: Row, now: int, managed: bool, k: Option<Act.Token>, bound: nat)
    requires RowOk(r) && TokensBelow(r, bound) && (k.Some? ==> k.value < bound)
    ensures var q := SweepThenClaim(r, now, managed, k);
      RowOk(q) && TokensBelow(q, bound) && (q.token == r.token || q.token == None || q.token == k)
  {
    SweepKeepsRowOk(r, now, managed, bound);
  }

  /** An event keeps the row well formed, and gives it no token but a fresh one. */
  lemma EventKeepsRow(r: Row, e: Event, bound: nat)
    requires RowOk(r) && TokensBelow(r, bound) && (Granted(e).Some? ==> Granted(e).value < bound)
    ensures RowOk(ApplyEvent(r, e))
    ensures TokensBelow(ApplyEvent(r, e), bound)
    ensures var q := ApplyEvent(r, e); q.token == r.token || q.token == None || q.token == Granted(e)
  {
    match e
    case Untouched =>
    case Moved(_) =>
    case ByUser(c) => UserKeepsRowOk(r, c, bound);
    case ByWorker(k, c) => WorkerKeepsRowOk(r, k, c, bound);
    case Renewed(_, _) =>
    case Recovered(_, _) =>
    case Swept(now, managed, k) => ClaimKeepsRowOk(r, now, managed, k, bound);
  }

  /** A row after the step, by the event that made it. */
  lemma RowAfter(w: World, s: Step, t: TaskId)
    requires RowsInv(w) && t in Apply(w, s).rows
    ensures var v := Apply(w, s); t < v.nextTask && RowOk(v.rows[t]) && TokensBelow(v.rows[t], v.nextToken)
    ensures t in w.rows ==>
      var q := Apply(w, s).rows[t].token; q == w.rows[t].token || q == None || (q.Some? && w.nextToken <= q.value)
  {
    StepKeepsTable(w, s);
    if t in w.rows {
      StepActsByEvent(w, s, t);
      EventKeepsRow(w.rows[t], EventOf(w, s, t), Apply(w, s).nextToken);
    }
  }

  lemma RowsInvStep(w: World, s: Step)
    requires RowsInv(w)
    ensures RowsInv(Apply(w, s)) && w.nextTask <= Apply(w, s).nextTask && w.nextToken <= Apply(w, s).nextToken
    ensures forall t :: t in Apply(w, s).rows && t < w.nextTask ==> t in w.rows
  {
    StepKeepsTable(w, s);
    forall t | t in Apply(w, s).rows
      ensures var v := Apply(w, s); t < v.nextTask && RowOk(v.rows[t]) && TokensBelow(v.rows[t], v.nextToken)
    {
      RowAfter(w, s, t);
    }
  }

  lemma {:induction false} RowsInvHolds(w: World, steps: seq<Step>)
    requires RowsInv(w)
    ensures RowsInv(Run(w, steps))
    decreases |steps|
  {
    if steps != [] {
      RowsInvStep(w, steps[0]);
      RowsInvHolds(Apply(w, steps[0]), steps[1..]);
    }
  }

  /** In every reachable state a token and a lease exist exactly on executing
      tasks, and waiting or running tasks carry no cancel request. */
  lemma TokensMarkExecution(limits: Limits, now: int, steps: seq<Step>, t: TaskId)
    requires t in Run(Init(limits, now), steps).rows
    ensures var r := Run(Init(limits, now), steps).rows[t];
      && (r.token.Some? <==> r.status.Running? || r.status.Canceling?)
      && (r.lease.Some? <==> r.token.Some?)
      && (r.status.Queued? || r.status.Running? ==> !r.cancelRequested)
  {
    RowsInvHolds(Init(limits, now), steps);
  }

  // ---- fencing -------------------------------------------------------------------

  ghost predicate Holds(w: World, t: TaskId, k: Act.Token) { t in w.rows && Owned(w.rows[t], k) }

  /** A token once lost never comes back to the task. */
  lemma {:induction false} LostTokenStaysLost(w: World, steps: seq<Step>, t: TaskId, k: Act.Token)
    requires RowsInv(w) && t < w.nextTask && k < w.nextToken && !Holds(w, t, k)
    ensures !Holds(Run(w, steps), t, k)
    decreases |steps|
  {
    if steps != [] {
      var s := steps[0];
      RowsInvStep(w, s);
      if t in Apply(w, s).rows { RowAfter(w, s, t); }
      LostTokenStaysLost(Apply(w, s), steps[1..], t, k);
    }
  }

  lemma StaleChangeIsPowerless(r: Row, k: Act.Token, c: WorkerChange)
    requires !Owned(r, k)
    ensures var q := ApplyWorker(r, k, c); q == r.(activity := q.activity) && View(q) == View(r)
  {
  }

  /** Once a task no longer holds token k, nothing a worker with k does, in any
      later state, changes the row, its live result, or the activity record as
      anyone can read it. */
  lemma StaleWorkerIsFenced(w: World, steps: seq<Step>, t: TaskId, k: Act.Token, p: ProcessId, c: WorkerChange)
    requires RowsInv(w) && t < w.nextTask && k < w.nextToken && !Holds(w, t, k)
    ensures var v := Run(w, steps);
      p in v.live && v.live[p].task == t && v.live[p].token == k && t in v.rows ==>
        var q := Apply(v, Work(p, c)).rows;
        && q.Keys == v.rows.Keys
        && (forall x :: x in v.rows && x != t ==> q[x] == v.rows[x])
        && q[t] == v.rows[t].(activity := q[t].activity)
        && View(q[t]) == View(v.rows[t])
  {
    LostTokenStaysLost(w, steps, t, k);
    var v := Run(w, steps);
    if t in v.rows { StaleChangeIsPowerless(v.rows[t], k, c); }
  }

  // ---- cancellation --------------------------------------------------------------

  predicate CancelingWith(w: World, t: TaskId, k: Act.Token) {
    t in w.rows && w.rows[t].status.Canceling? && Owned(w.rows[t], k)
  }

  /** Along the run the task stays canceling under the same claim until it is
      canceled or deleted. */
  ghost predicate CancelSettles(w: World, steps: seq<Step>, t: TaskId, k: Act.Token)
    decreases |steps|
  {
    steps == [] ||
    var v := Apply(w, steps[0]);
    || t !in v.rows
    || (v.rows[t].status.Canceled? && v.rows[t].token.None?)
    || (CancelingWith(v, t, k) && CancelSettles(v, steps[1..], t, k))
  }

  lemma EventKeepsCanceling(r: Row, e: Event, k: Act.Token)
    requires r.status.Canceling? && r.cancelRequested && Owned(r, k)
    ensures var q := ApplyEvent(r, e);
      (q.status.Canceling? && Owned(q, k)) || (q.status.Canceled? && q.token.None?)
  {
  }

  lemma {:induction false} CancelingSettles(w: World, steps: seq<Step>, t: TaskId, k: Act.Token)
    requires RowsInv(w) && CancelingWith(w, t, k)
    ensures CancelSettles(w, steps, t, k)
    decreases |steps|
  {
    if steps != [] {
      var v := Apply(w, steps[0]);
      RowsInvStep(w, steps[0]);
      if t in v.rows {
        StepActsByEvent(w, steps[0], t);
        EventKeepsCanceling(w.rows[t], EventOf(w, steps[0], t), k);
        if CancelingWith(v, t, k) { CancelingSettles(v, steps[1..], t, k); }
      }
    }
  }

  /** A running task that its user cancels never completes, fails or is queued
      again under that claim, whatever the supervisor had read before. */
  lemma CancelIsNeverLost(limits: Limits, now: int, before: seq<Step>, after: seq<Step>, t: TaskId)
    requires var w := Run(Init(limits, now), before); t in w.rows && w.rows[t].status.Running?
    ensures var w := Run(Init(limits, now), before);
      var v := Apply(w, User(t, UserCancelExecuting));
      && w.rows[t].token.Some?
      && CancelingWith(v, t, w.rows[t].token.value)
      && CancelSettles(v, after, t, w.rows[t].token.value)
  {
    var w := Run(Init(limits, now), before);
    RowsInvHolds(Init(limits, now), before);
    var v := Apply(w, User(t, UserCancelExecuting));
    RowsInvStep(w, User(t, UserCancelExecuting));
    CancelingSettles(v, after, t, w.rows[t].token.value);
  }

  // ---- the activity record ---------------------------------------------------------

  /** The worker's own last act on the record of its claim. */
  ghost predicate ClearsOwn(w: World, s: Step, t: TaskId, k: Act.Token) {
    s.Work? && s.workerChange.WorkerClearActivity? && s.process in w.live && w.live[s.process].task == t && w.live[s.process].token == k
  }

  ghost predicate NeverClears(w: World, steps: seq<Step>, t: TaskId, k: Act.Token)
    decreases |steps|
  {
    steps == [] || (!ClearsOwn(w, steps[0], t, k) && NeverClears(Apply(w, steps[0]), steps[1..], t, k))
  }

  lemma UserAdvances(r: Row, c: UserChange)
    requires Active(r) && Active(ApplyUser(r, c))
    ensures Act.Advances(View(r), View(ApplyUser(r, c)))
    ensures Act.RecordOk(View(r)) ==> Act.RecordOk(View(ApplyUser(r, c)))
  {
  }

  lemma OpAdvances(v: Act.Record, op: ActivityOp)
    ensures Act.Advances(v, ApplyOp(v, op)) && ApplyOp(v, op).token == v.token
    ensures Act.RecordOk(v) ==> Act.RecordOk(ApplyOp(v, op))
  {
  }

  lemma WorkerAdvances(r: Row, k: Act.Token, c: WorkerChange)
    requires c.WorkerClearActivity? ==> !Owned(r, k)
    requires r.token.Some? && ApplyWorker(r, k, c).token == r.token
    ensures Act.Advances(View(r), View(ApplyWorker(r, k, c)))
    ensures Act.RecordOk(View(r)) ==> Act.RecordOk(View(ApplyWorker(r, k, c)))
  {
    if c.WorkerActivity? { OpAdvances(View(r), c.op); }
  }

  lemma EventAdvances(r: Row, e: Event, k: Act.Token, bound: nat)
    requires RowOk(r) && TokensBelow(r, bound) && Owned(r, k) && Owned(ApplyEvent(r, e), k)
    requires Granted(e).Some? ==> bound <= Granted(e).value
    requires !(e.ByWorker? && e.work.WorkerClearActivity? && e.worker == k)
    ensures Act.Advances(View(r), View(ApplyEvent(r, e)))
    ensures Act.RecordOk(View(r)) ==> Act.RecordOk(View(ApplyEvent(r, e)))
  {
    if e.ByUser? { UserAdvances(r, e.change); }
    if e.ByWorker? { WorkerAdvances(r, e.worker, e.work); }
  }

  /** Within one claim execution numbers never decrease and, within one
      execution, a cancel request is never cleared, until the worker itself
      drops the record at its end. */
  lemma {:induction false} ChecksMoveForward(w: World, steps: seq<Step>, t: TaskId, k: Act.Token)
    requires RowsInv(w) && Holds(w, t, k) && NeverClears(w, steps, t, k)
    requires Holds(Run(w, steps), t, k)
    ensures Act.Advances(View(w.rows[t]), View(Run(w, steps).rows[t]))
    ensures Act.RecordOk(View(w.rows[t])) ==> Act.RecordOk(View(Run(w, steps).rows[t]))
    decreases |steps|
  {
    if steps != [] {
      var s := steps[0];
      var v := Apply(w, s);
      RowsInvStep(w, s);
      if !Holds(v, t, k) {
        LostTokenStaysLost(v, steps[1..], t, k);
      }
      StepActsByEvent(w, s, t);
      EventAdvances(w.rows[t], EventOf(w, s, t), k, w.nextToken);
      ChecksMoveForward(v, steps[1..], t, k);
      Act.AdvancesTransitive(View(w.rows[t]), View(v.rows[t]), View(Run(w, steps).rows[t]));
    }
  }

  // ---- requests on a queued task ------------------------------------------------------

  /** The claim binds the record the users left to its token. */
  lemma ClaimKeepsRequests(r: Row, now: int, managed: bool, k: Option<Act.Token>)
    requires RowOk(r) && r.status.Queued?
    ensures var q := SweepThenClaim(r, now, managed, k); View(q).checks == View(r).checks && View(q).phase == View(r).phase
  {
  }

  lemma QueuedAdvances(r: Row, e: Event)
    requires RowOk(r) && r.status.Queued? && Active(ApplyEvent(r, e))
    ensures Act.Advances(View(r), View(ApplyEvent(r, e)))
    ensures Act.RecordOk(View(r)) ==> Act.RecordOk(View(ApplyEvent(r, e)))
  {
    match e
    case ByUser(c) => UserAdvances(r, c);
    case ByWorker(k, c) => StaleChangeIsPowerless(r, k, c);
    case Swept(now, managed, k) => ClaimKeepsRequests(r, now, managed, k);
    case _ =>
  }

  /** The task waits in the queue, then executes under claim k, whose worker
      has not dropped its record yet. */
  ghost predicate WaitsThenHolds(w: World, steps: seq<Step>, t: TaskId, k: Act.Token)
    decreases |steps|
  {
    && t in w.rows && (w.rows[t].status.Queued? || Holds(w, t, k))
    && (steps != [] ==>
          && !ClearsOwn(w, steps[0], t, k) && (Holds(w, t, k) ==> Holds(Apply(w, steps[0]), t, k))
          && WaitsThenHolds(Apply(w, steps[0]), steps[1..], t, k))
  }

  lemma StepAdvances(w: World, s: Step, t: TaskId, k: Act.Token)
    requires RowsInv(w) && t in w.rows && t in Apply(w, s).rows && !ClearsOwn(w, s, t, k)
    requires if Holds(w, t, k) then Holds(Apply(w, s), t, k) else w.rows[t].status.Queued? && Active(Apply(w, s).rows[t])
    ensures Act.Advances(View(w.rows[t]), View(Apply(w, s).rows[t]))
    ensures Act.RecordOk(View(w.rows[t])) ==> Act.RecordOk(View(Apply(w, s).rows[t]))
  {
    StepActsByEvent(w, s, t);
    if Holds(w, t, k) { EventAdvances(w.rows[t], EventOf(w, s, t), k, w.nextToken); }
    else { QueuedAdvances(w.rows[t], EventOf(w, s, t)); }
  }

  lemma {:induction false} WaitingMovesForward(w: World, steps: seq<Step>, t: TaskId, k: Act.Token)
    requires RowsInv(w) && WaitsThenHolds(w, steps, t, k)
    ensures t in Run(w, steps).rows && Act.Advances(View(w.rows[t]), View(Run(w, steps).rows[t]))
    ensures Act.RecordOk(View(w.rows[t])) ==> Act.RecordOk(View(Run(w, steps).rows[t]))
    decreases |steps|
  {
    if steps != [] {
      var v := Apply(w, steps[0]);
      RowsInvStep(w, steps[0]);
      StepAdvances(w, steps[0], t, k);
      WaitingMovesForward(v, steps[1..], t, k);
      Act.AdvancesTransitive(View(w.rows[t]), View(v.rows[t]), View(Run(w, steps).rows[t]));
    }
  }

  /** Cancels and retries recorded on a queued task reach its worker: from any
      reachable state in which the task waits, through anything users, sweeps,
      other workers and the claim itself do, no check's execution goes back,
      and within one execution no cancel request is dropped and no finished
      check becomes unfinished. */
  lemma QueuedRequestsReachTheWorker(limits: Limits, now: int, before: seq<Step>, steps: seq<Step>, t: TaskId, k: Act.Token)
    requires WaitsThenHolds(Run(Init(limits, now), before), steps, t, k)
    ensures var w := Run(Init(limits, now), before);
      var v := Run(w, steps);
      && t in v.rows && Act.Advances(View(w.rows[t]), View(v.rows[t]))
      && (Act.RecordOk(View(w.rows[t])) ==> Act.RecordOk(View(v.rows[t])))
  {
    RowsInvHolds(Init(limits, now), before);
    WaitingMovesForward(Run(Init(limits, now), before), steps, t, k);
  }
}
