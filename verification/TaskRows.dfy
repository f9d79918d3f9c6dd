/** One task: its row in `tasks`, its row in `task_live_results` and its
    activity record, with every guarded UPDATE that can touch them.  A change
    whose WHERE clause does not match leaves the task as it was. */
module TaskRows {
  import opened Options
  import Act = CheckActivity

  datatype Status = Queued | Running | Canceling | Completed | Partial | Failed | Canceled

  datatype CheckResult = CheckResult(code: Act.Code, execution: nat, canceled: bool, error: bool, incomplete: bool)

  datatype Row = Row(
    owner: string,
    createdAt: int,
    media: bool,                              // image and video tasks
    snapshot: seq<Act.Code>,                  // codes of checks_snapshot_json
    status: Status,
    cancelRequested: bool,
    token: Option<Act.Token>,
    lease: Option<int>,
    retryCodes: Option<seq<Act.Code>>,
    result: Option<seq<CheckResult>>,         // result_json
    live: Option<seq<CheckResult>>,           // task_live_results.result_json
    activity: Option<Act.Record>)             // settings['task_activity:<id>']

  const LEASE_SECONDS: int := 90

  predicate Executing(r: Row) { r.status.Running? || r.status.Canceling? }
  predicate Active(r: Row) { r.status.Queued? || Executing(r) }
  predicate Finished(r: Row) { !Active(r) }
  predicate Owned(r: Row, k: Act.Token) { r.token == Some(k) }

  /** The record as its readers see it: nothing unless it carries the row's token. */
  function View(r: Row): Act.Record { Act.Load(r.activity, r.token) }

  /** Codes the next execution selects. */
  function Selected(r: Row): set<Act.Code> {
    if r.retryCodes.Some? then set c | c in r.retryCodes.value else set c | c in r.snapshot
  }

  // ---- changes by the user --------------------------------------------------

  function CancelQueued(r: Row): Row {
    if !r.status.Queued? then r
    else r.(cancelRequested := true, status := Canceled, retryCodes := None, token := None, lease := None, live := None)
  }

  function CancelExecuting(r: Row): Row {
    if !Executing(r) then r else r.(cancelRequested := true, status := Canceling)
  }

  /** First half of deleting a queued task; keeps the retry scope. */
  function RetireQueued(r: Row): Row {
    if !r.status.Queued? then r
    else r.(cancelRequested := true, status := Canceled, token := None, lease := None, live := None)
  }

  function CancelCheck(r: Row, token: Option<Act.Token>, code: Act.Code, execution: Option<nat>): Row {
    if !(r.status.Queued? || r.status.Running?) || r.token != token then r
    else r.(activity := Some(Act.RequestCancel(View(r), code, execution, Selected(r)).0))
  }

  /** Last result of a code, as a dictionary built in list order keeps it. */
  function Previous(results: seq<CheckResult>, code: Act.Code): Option<CheckResult> {
    if results == [] then None
    else if results[|results| - 1].code == code then Some(results[|results| - 1])
    else Previous(results[..|results| - 1], code)
  }

  function Results(r: Row): seq<CheckResult> { if r.result.Some? then r.result.value else [] }

  predicate NeedsRetry(r: Row, code: Act.Code) {
    var previous := Previous(Results(r), code);
    if previous.Some? then previous.value.canceled || previous.value.error || previous.value.incomplete
    else (r.status.Failed? || r.status.Canceled?) && (r.retryCodes.None? || code in r.retryCodes.value)
  }

  /** Codes of the snapshot, in order, that a task retry runs again. */
  function RetryScope(r: Row, n: nat): seq<Act.Code>
    requires n <= |r.snapshot|
  {
    if n == 0 then []
    else RetryScope(r, n - 1) + (if NeedsRetry(r, r.snapshot[n - 1]) then [r.snapshot[n - 1]] else [])
  }

  function NextExecution(r: Row, code: Act.Code): nat {
    var previous := Previous(Results(r), code);
    (if previous.Some? then previous.value.execution else 0) + 1
  }

  function Requeue(r: Row, codes: seq<Act.Code>, checks: map<Act.Code, nat>): Row {
    r.(status := Queued, cancelRequested := false, retryCodes := Some(codes), token := None, lease := None, live := None,
       activity := Some(Act.Record(None, Some(Act.Preparing), map c | c in checks :: Act.Fresh(checks[c]))))
  }

  function RetryTask(r: Row): Row {
    var codes := RetryScope(r, |r.snapshot|);
    if !(r.status.Failed? || r.status.Partial? || r.status.Canceled?) || codes == [] then r
    else Requeue(r, codes, map c | c in codes :: NextExecution(r, c))
  }

  /** First result of a code, as `next(...)` finds it. */
  function FirstResult(results: seq<CheckResult>, code: Act.Code): Option<CheckResult> {
    if results == [] then None
    else if results[0].code == code then Some(results[0])
    else FirstResult(results[1..], code)
  }

  /** The item a single retry acts on: the recorded one, or one derived from the
      stored result. */
  function RetryItem(r: Row, code: Act.Code): Act.Check {
    var known := View(r).checks;
    if (r.status.Queued? || r.status.Running?) && code in known then known[code]
    else
      var previous := FirstResult(Results(r), code);
      var phase :=
        if (r.status.Queued? || r.status.Running?) && r.retryCodes.Some? && code in r.retryCodes.value then Act.Pending
        else if (previous.Some? && previous.value.canceled) || (r.status.Canceled? && previous.None?) then Act.Canceled
        else if (previous.Some? && previous.value.error) || (r.status.Failed? && previous.None?) then Act.Failed
        else Act.Completed;
      Act.Check(phase, if previous.Some? then previous.value.execution else 0, false, false)
  }

  function WithCode(codes: Option<seq<Act.Code>>, code: Act.Code): Option<seq<Act.Code>> {
    if codes.None? || code in codes.value then codes else Some(codes.value + [code])
  }

  predicate RetryAccepted(r: Row, code: Act.Code, execution: nat) {
    var item := RetryItem(r, code);
    && !r.status.Canceling?
    && !(r.media && (r.status.Queued? || r.status.Running?))
    && code in r.snapshot
    && item.execution == execution
    && !item.retryRequested
    && Act.Retryable(item.phase)
    && (r.status.Running? ==> View(r).phase != Some(Act.Finalizing))
  }

  function RetryCheck(r: Row, code: Act.Code, execution: nat): Row {
    if !RetryAccepted(r, code, execution) then r
    else if r.status.Running? then
      r.(activity := Some(Act.RequestRetry(View(r), code, RetryItem(r, code))), retryCodes := WithCode(r.retryCodes, code))
    else if r.status.Queued? then
      var v := View(r);
      r.(activity := Some(v.(checks := v.checks[code := Act.Fresh(execution + 1)])), retryCodes := WithCode(r.retryCodes, code))
    else Requeue(r, [code], map[code := execution + 1])
  }

  // ---- changes by the worker holding a claim --------------------------------

  datatype ActivityOp =
    | Initialize(phase: Act.TaskPhase, checks: map<Act.Code, nat>)
    | UpdatePhase(codes: set<Act.Code>, work: Act.WorkPhase)
    | StartCheck(code: Act.Code)
    | FinishCheck(code: Act.Code, failed: bool)
    | TakeRetries(busy: set<Act.Code>)

  function ApplyOp(v: Act.Record, op: ActivityOp): Act.Record {
    match op
    case Initialize(phase, checks) => Act.Initialize(v, phase, checks)
    case UpdatePhase(codes, work) => Act.UpdatePhase(v, codes, work)
    case StartCheck(code) => Act.Start(v, code).0
    case FinishCheck(code, failed) => Act.Finish(v, code, failed).0
    case TakeRetries(busy) => Act.TakeRetries(v, busy).0
  }

  function ChangeActivity(r: Row, k: Act.Token, op: ActivityOp): Row {
    if !r.status.Running? || !Owned(r, k) then r else r.(activity := Some(ApplyOp(View(r), op)))
  }

  function SaveLive(r: Row, k: Act.Token, results: seq<CheckResult>): Row {
    if !r.status.Running? || !Owned(r, k) then r else r.(live := Some(results))
  }

  function Complete(r: Row, k: Act.Token, final: Status, results: seq<CheckResult>): Row {
    if !r.status.Running? || r.cancelRequested || !Owned(r, k) || !(final.Completed? || final.Partial? || final.Canceled?) then r
    else r.(status := final, result := Some(results), retryCodes := None, token := None, lease := None, live := None)
  }

  function MarkCanceled(r: Row, k: Act.Token): Row {
    if !Executing(r) || !Owned(r, k) then r
    else r.(status := Canceled, result := if r.live.Some? then r.live else r.result,
            retryCodes := None, token := None, lease := None, live := None, activity := None)
  }

  /** `results` is the column the caller read or computed before the update. */
  function MarkFailed(r: Row, k: Act.Token, results: Option<seq<CheckResult>>): Row {
    if !r.status.Running? || !Owned(r, k) then r
    else r.(status := Failed, result := results, token := None, lease := None, live := None, activity := None)
  }

  function ClearActivity(r: Row, k: Act.Token): Row {
    if r.activity.Some? && r.activity.value.token == Some(k) then r.(activity := None) else r
  }

  // ---- changes by the supervisor -------------------------------------------

  function Renew(r: Row, k: Act.Token, until: int): Row {
    if !Executing(r) || !Owned(r, k) then r else r.(lease := Some(until))
  }

  function BackToQueue(r: Row): Row {
    r.(status := Queued, cancelRequested := false, token := None, lease := None,
       result := if r.retryCodes.None? then None else r.result)
  }

  function RequeueOwned(r: Row, k: Act.Token): Row {
    if !r.status.Running? || !Owned(r, k) then r else BackToQueue(r).(live := None, activity := None)
  }

  predicate LeaseOver(r: Row, now: int) { r.lease.None? || r.lease.value <= now }

  function EndExpiredCancel(r: Row): Row {
    if r.status.Canceling? || (r.status.Running? && r.cancelRequested)
    then r.(status := Canceled, retryCodes := None, token := None, lease := None) else r
  }

  function RequeueExpired(r: Row): Row {
    if r.status.Running? && !r.cancelRequested then BackToQueue(r) else r
  }

  function DropOrphans(r: Row): Row {
    DropActivity(if Executing(r) then r else r.(live := None))
  }

  function DropActivity(r: Row): Row {
    if r.activity.Some? && !(Active(r) && r.activity.value.token == r.token) then r.(activity := None) else r
  }

  /** The sweep at the head of a claim transaction: expired claims of tasks
      without a process end, then orphaned live results and records go. */
  function Sweep(r: Row, now: int, managed: bool): Row {
    DropOrphans(if !managed && LeaseOver(r, now) then RequeueExpired(EndExpiredCancel(r)) else r)
  }

  function Claim(r: Row, k: Act.Token, until: int): Row {
    if !r.status.Queued? then r
    else r.(status := Running, token := Some(k), lease := Some(until),
            activity := if r.activity.Some? && r.activity.value.token.None?
                        then Some(r.activity.value.(token := Some(k))) else r.activity)
  }

  /** A claim transaction's whole effect on one task: the sweep, then the claim
      if the task was chosen. */
  function SweepThenClaim(r: Row, now: int, managed: bool, token: Option<Act.Token>): Row {
    var swept := Sweep(r, now, managed);
    if token.Some? then Claim(swept, token.value, now + LEASE_SECONDS) else swept
  }

  // ---- one name for every change --------------------------------------------

  datatype UserChange =
    | UserCancelQueued
    | UserCancelExecuting
    | UserRetireQueued
    | UserCancelCheck(token: Option<Act.Token>, code: Act.Code, execution: Option<nat>)
    | UserRetryTask
    | UserRetryCheck(retryCode: Act.Code, retryExecution: nat)

  function ApplyUser(r: Row, c: UserChange): Row {
    match c
    case UserCancelQueued => CancelQueued(r)
    case UserCancelExecuting => CancelExecuting(r)
    case UserRetireQueued => RetireQueued(r)
    case UserCancelCheck(token, code, execution) => CancelCheck(r, token, code, execution)
    case UserRetryTask => RetryTask(r)
    case UserRetryCheck(code, execution) => RetryCheck(r, code, execution)
  }

  datatype WorkerChange =
    | WorkerActivity(op: ActivityOp)
    | WorkerSaveLive(snapshot: seq<CheckResult>)
    | WorkerComplete(final: Status, results: seq<CheckResult>)
    | WorkerMarkCanceled
    | WorkerMarkFailed(outcome: Option<seq<CheckResult>>)
    | WorkerClearActivity

  function ApplyWorker(r: Row, k: Act.Token, c: WorkerChange): Row {
    match c
    case WorkerActivity(op) => ChangeActivity(r, k, op)
    case WorkerSaveLive(results) => SaveLive(r, k, results)
    case WorkerComplete(final, results) => Complete(r, k, final, results)
    case WorkerMarkCanceled => MarkCanceled(r, k)
    case WorkerMarkFailed(results) => MarkFailed(r, k, results)
    case WorkerClearActivity => ClearActivity(r, k)
  }

  /** What `_recover_owned_task` decides from the row it reads first. */
  datatype Decision = Leave | EndCanceled | EndFailed(found: Option<seq<CheckResult>>) | EndRequeued

  function Decide(r: Row, k: Act.Token, startupError: bool): Decision {
    if !Owned(r, k) || !Executing(r) then Leave
    else if r.cancelRequested || r.status.Canceling? then EndCanceled
    else if startupError then EndFailed(if r.live.Some? then r.live else r.result)
    else EndRequeued
  }

  function ApplyDecision(r: Row, k: Act.Token, d: Decision): Row {
    match d
    case Leave => r
    case EndCanceled => MarkCanceled(r, k)
    case EndFailed(found) => MarkFailed(r, k, found)
    case EndRequeued => RequeueOwned(r, k)
  }

  // ---- what every change keeps ----------------------------------------------

  /** A claim token and a lease exist exactly while the task executes, and no
      waiting or running task carries a cancel request. */
  predicate RowOk(r: Row) {
    && (r.token.Some? <==> Executing(r))
    && (r.lease.Some? <==> Executing(r))
    && (r.status.Queued? || r.status.Running? ==> !r.cancelRequested)
    && (r.status.Canceling? ==> r.cancelRequested)
    && (r.live.Some? ==> Executing(r))
  }

  /** Every token the task mentions was issued before `bound`. */
  predicate TokensBelow(r: Row, bound: nat) {
    && (r.token.Some? ==> r.token.value < bound)
    && (r.activity.Some? && r.activity.value.token.Some? ==> r.activity.value.token.value < bound)
  }

  lemma UserKeepsRowOk(r: Row, c: UserChange, bound: nat)
    requires RowOk(r) && TokensBelow(r, bound)
    ensures RowOk(ApplyUser(r, c)) && TokensBelow(ApplyUser(r, c), bound)
    ensures var q := ApplyUser(r, c); q.token == r.token || q.token == None
    ensures Executing(ApplyUser(r, c)) == Executing(r)
  {
  }

  lemma WorkerKeepsRowOk(r: Row, k: Act.Token, c: WorkerChange, bound: nat)
    requires RowOk(r) && TokensBelow(r, bound)
    ensures RowOk(ApplyWorker(r, k, c)) && TokensBelow(ApplyWorker(r, k, c), bound)
    ensures var q := ApplyWorker(r, k, c); q.token == r.token || (q.token == None && Owned(r, k))
  {
  }
}
