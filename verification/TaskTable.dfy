/** The transactions and guarded updates that users, workers and the supervisor
    make on the tasks table (app/web/task_actions.py, app/tasks/retries.py,
    app/tasks/activity.py, app/tasks/runner.py), as they run, each with the
    effect TaskRows gives it. */
module TaskTable {
  import opened Options
  import opened TaskRows
  import opened ActivityChanges
  import Act = CheckActivity

  /** The dictionary of results by code; a later result replaces an earlier one. */
  method ResultsByCode(results: seq<CheckResult>) returns (m: map<Act.Code, CheckResult>)
    ensures forall c :: c in m <==> Previous(results, c).Some?
    ensures forall c <- m :: Previous(results, c) == Some(m[c])
  {
    m := map[];
    var i := 0;
    while i < |results|
      invariant 0 <= i <= |results|
      invariant forall c :: c in m <==> Previous(results[..i], c).Some?
      invariant forall c <- m :: Previous(results[..i], c) == Some(m[c])
    {
      var n := i + 1;
      assert results[..n][..i] == results[..i];
      m := m[results[i].code := results[i]];
      i := n;
    }
    assert results[..i] == results;
  }

  /** retry_check_codes_for_task: None stands for its refusals. */
  method RetryCheckCodes(r: Row) returns (codes: Option<seq<Act.Code>>)
    ensures codes.Some? <==> (r.status.Failed? || r.status.Partial? || r.status.Canceled?) && RetryScope(r, |r.snapshot|) != []
    ensures codes.Some? ==> codes.value == RetryScope(r, |r.snapshot|)
  {
    if !(r.status.Failed? || r.status.Partial? || r.status.Canceled?) { return None; }
    var results := ResultsByCode(Results(r));
    var scope: seq<Act.Code> := [];
    var i := 0;
    while i < |r.snapshot|
      invariant 0 <= i <= |r.snapshot| && scope == RetryScope(r, i)
    {
      var code := r.snapshot[i];
      if code in results {
        var previous := results[code];
        assert Previous(Results(r), code) == Some(previous);
        if previous.canceled || previous.error || previous.incomplete { scope := scope + [code]; }
      } else if (r.status.Failed? || r.status.Canceled?) && (r.retryCodes.None? || code in r.retryCodes.value) {
        scope := scope + [code];
      }
      i := i + 1;
    }
    codes := if scope == [] then None else Some(scope);
  }

  /** A task retry runs again exactly the checks that still need it, in the
      order of the snapshot. */
  lemma {:induction false} RetryScopeMeans(r: Row, n: nat, code: Act.Code)
    requires n <= |r.snapshot|
    ensures code in RetryScope(r, n) <==> code in r.snapshot[..n] && NeedsRetry(r, code)
  {
    if n > 0 {
      RetryScopeMeans(r, n - 1, code);
      assert r.snapshot[..n] == r.snapshot[..n - 1] + [r.snapshot[n - 1]];
    }
  }

  datatype RetryAnswer = Accepted | AlreadyPending | Refused

  class Table {
    var rows: map<nat, Row>

    constructor ()
      ensures rows == map[]
    {
      rows := map[];
    }

    /** _cancel_task, which acts on the status the caller read before. */
    method CancelTask(t: nat, seen: Status)
      modifies this
      ensures rows == if t in old(rows) && (seen.Queued? || seen.Running? || seen.Canceling?)
                      then old(rows)[t := if seen.Queued? then CancelQueued(old(rows)[t]) else CancelExecuting(old(rows)[t])]
                      else old(rows)
      ensures forall x <- old(rows) :: x in rows && (rows[x] == old(rows)[x] || (x == t && rows[x].cancelRequested))
      ensures t in rows && Active(old(rows)[t]) && !Active(rows[t]) ==> old(rows)[t].status.Queued? && seen.Queued?
      ensures t in old(rows) && old(rows)[t].status.Queued? && seen.Queued? ==> rows[t].status.Canceled? && rows[t].token.None?
      ensures t in old(rows) && Executing(old(rows)[t]) && (seen.Running? || seen.Canceling?) ==>
        rows[t] == old(rows)[t].(status := Canceling, cancelRequested := true)
    {
      if seen.Completed? || seen.Partial? || seen.Failed? || seen.Canceled? { return; }
      if t !in rows { return; }
      var r := rows[t];
      if seen.Queued? {
        if r.status.Queued? {
          r := r.(cancelRequested := true, status := Canceled, retryCodes := None, token := None, lease := None);
          r := r.(live := None);
        }
      } else if r.status.Running? || r.status.Canceling? {
        r := r.(cancelRequested := true, status := Canceling);
      }
      rows := rows[t := r];
    }

    /** First half of _delete_queued_task. */
    method RetireQueuedTask(t: nat) returns (retired: bool)
      modifies this
      ensures retired <==> t in old(rows) && old(rows)[t].status.Queued?
      ensures rows == if t in old(rows) then old(rows)[t := RetireQueued(old(rows)[t])] else old(rows)
      ensures if retired then rows[t].status.Canceled? && rows[t].cancelRequested && rows[t].retryCodes == old(rows)[t].retryCodes else rows == old(rows)
    {
      if t !in rows { return false; }
      var r := rows[t];
      retired := r.status.Queued?;
      if retired { r := r.(cancelRequested := true, status := Canceled, token := None, lease := None, live := None); }
      rows := rows[t := r];
    }

    /** request_task_retry: the number of checks queued again, or a refusal that changes nothing. */
    method RetryTask(t: nat) returns (count: Option<nat>)
      modifies this
      ensures rows == if t in old(rows) then old(rows)[t := TaskRows.RetryTask(old(rows)[t])] else old(rows)
      ensures count.Some? ==> t in old(rows) && rows[t].status.Queued? && count.value == |RetryScope(old(rows)[t], |old(rows)[t].snapshot|)| > 0
      ensures count.None? ==> rows == old(rows)
    {
      if t !in rows { return None; }
      var r := rows[t];
      var codes := RetryCheckCodes(r);
      if codes.None? {
        assert rows[t := r] == rows;
        return None;
      }
      var checks := map c | c in codes.value :: NextExecution(r, c);
      rows := rows[t := Requeue(r, codes.value, checks)];
      count := Some(|codes.value|);
    }

    /** request_check_retry */
    method RetryCheck(t: nat, code: Act.Code, execution: nat) returns (answer: RetryAnswer)
      modifies this
      ensures rows == if t in old(rows) then old(rows)[t := TaskRows.RetryCheck(old(rows)[t], code, execution)] else old(rows)
      ensures answer.Accepted? <==> t in old(rows) && RetryAccepted(old(rows)[t], code, execution)
      ensures answer.AlreadyPending? ==> rows == old(rows) && t in rows && RetryItem(rows[t], code).retryRequested && RetryItem(rows[t], code).execution == execution
    {
      if t !in rows { return Refused; }
      var r := rows[t];
      assert rows[t := r] == rows;
      if r.status.Canceling? || (r.media && (r.status.Queued? || r.status.Running?)) || code !in r.snapshot { return Refused; }
      var item := RetryItem(r, code);
      if item.execution != execution { return Refused; }
      if item.retryRequested { return AlreadyPending; }
      if !Act.Retryable(item.phase) { return Refused; }
      var v := View(r);
      if r.status.Running? {
        if v.phase == Some(Act.Finalizing) { return Refused; }
        v := v.(checks := v.checks[code := item.(retryRequested := true)]);
        r := r.(activity := Some(v), retryCodes := WithCode(r.retryCodes, code));
      } else if r.status.Queued? {
        v := v.(checks := v.checks[code := Act.Fresh(execution + 1)]);
        r := r.(activity := Some(v), retryCodes := WithCode(r.retryCodes, code));
      } else {
        r := Requeue(r, [code], map[code := execution + 1]);
      }
      rows := rows[t := r];
      answer := Accepted;
    }

    /** request_check_cancellation */
    method CancelCheck(t: nat, token: Option<Act.Token>, code: Act.Code, execution: Option<nat>) returns (shown: Option<Act.CheckPhase>)
      modifies this
      ensures rows == if t in old(rows) then old(rows)[t := TaskRows.CancelCheck(old(rows)[t], token, code, execution)] else old(rows)
      ensures shown.Some? ==> t in old(rows) && (old(rows)[t].status.Queued? || old(rows)[t].status.Running?) && old(rows)[t].token == token
    {
      if t !in rows { return None; }
      var r := rows[t];
      assert rows[t := r] == rows;
      if !(r.status.Queued? || r.status.Running?) || r.token != token { return None; }
      var state := new ActivityState(r.activity, r.token);
      shown := state.RequestCancellation(code, execution, Selected(r));
      rows := rows[t := r.(activity := Some(Act.Record(state.token, state.phase, state.checks)))];
    }

    /** _change_activity for the worker that holds claim k. */
    method StartCheck(t: nat, k: Act.Token, code: Act.Code) returns (started: bool)
      modifies this
      ensures rows == if t in old(rows) then old(rows)[t := ChangeActivity(old(rows)[t], k, ActivityOp.StartCheck(code))] else old(rows)
      ensures started <==> t in old(rows) && old(rows)[t].status.Running? && Owned(old(rows)[t], k) && Act.Start(View(old(rows)[t]), code).1
    {
      if t !in rows { return false; }
      var r := rows[t];
      assert rows[t := r] == rows;
      if !r.status.Running? || r.token != Some(k) { return false; }
      var state := new ActivityState(r.activity, r.token);
      started := state.StartCheck(code);
      rows := rows[t := r.(activity := Some(Act.Record(state.token, state.phase, state.checks)))];
    }

    method FinishCheck(t: nat, k: Act.Token, code: Act.Code, failed: bool) returns (canceled: bool)
      modifies this
      ensures rows == if t in old(rows) then old(rows)[t := ChangeActivity(old(rows)[t], k, ActivityOp.FinishCheck(code, failed))] else old(rows)
      ensures canceled <==> t in old(rows) && old(rows)[t].status.Running? && Owned(old(rows)[t], k) && Act.Finish(View(old(rows)[t]), code, failed).1
    {
      if t !in rows { return false; }
      var r := rows[t];
      assert rows[t := r] == rows;
      if !r.status.Running? || r.token != Some(k) { return false; }
      var state := new ActivityState(r.activity, r.token);
      canceled := state.FinishCheck(code, failed);
      rows := rows[t := r.(activity := Some(Act.Record(state.token, state.phase, state.checks)))];
    }

    /** take_check_retries: with busy checks and nothing ready the record is only
        read; None says the claim is no longer held. */
    method TakeCheckRetries(t: nat, k: Act.Token, busy: set<Act.Code>) returns (ready: Option<map<Act.Code, nat>>)
      modifies this
      ensures ready.Some? && !(busy != {} && ready.value == map[] && rows == old(rows)) ==>
        && t in old(rows) && old(rows)[t].status.Running? && Owned(old(rows)[t], k)
        && ready.value == Act.ReadyRetries(View(old(rows)[t]), busy)
        && rows == old(rows)[t := ChangeActivity(old(rows)[t], k, ActivityOp.TakeRetries(busy))]
      ensures ready.None? ==> rows == old(rows) && (t in rows ==> !rows[t].status.Running? || !Owned(rows[t], k))
    {
      if busy != {} {
        var shown := if t in rows && Active(rows[t]) && rows[t].activity.Some? && rows[t].activity.value.token == rows[t].token
                     then rows[t].activity.value.checks else map[];
        if forall c <- shown :: !shown[c].retryRequested || c in busy { return Some(map[]); }
      }
      if t !in rows { return None; }
      var r := rows[t];
      if !r.status.Running? || r.token != Some(k) { return None; }
      var state := new ActivityState(r.activity, r.token);
      var taken := state.TakeRetries(busy);
      rows := rows[t := r.(activity := Some(Act.Record(state.token, state.phase, state.checks)))];
      ready := Some(taken);
    }

    /** The completion update of TaskRunner.run. */
    method CompleteTask(t: nat, k: Act.Token, final: Status, results: seq<CheckResult>) returns (completed: bool)
      requires final.Completed? || final.Partial? || final.Canceled?
      modifies this
      ensures rows == if t in old(rows) then old(rows)[t := Complete(old(rows)[t], k, final, results)] else old(rows)
      ensures completed <==> t in old(rows) && old(rows)[t].status.Running? && !old(rows)[t].cancelRequested && Owned(old(rows)[t], k)
      ensures completed ==> rows[t].status == final && rows[t].result == Some(results) && rows[t].token.None? && rows[t].retryCodes.None? && rows[t].live.None?
      ensures !completed ==> rows == old(rows)
    {
      if t !in rows { return false; }
      var r := rows[t];
      completed := r.status.Running? && !r.cancelRequested && r.token == Some(k);
      if completed {
        r := r.(status := final, result := Some(results), retryCodes := None, token := None, lease := None);
        r := r.(live := None);
      }
      rows := rows[t := r];
    }

    /** The read of _recover_owned_task. */
    method ReadOwned(t: nat, k: Act.Token, startupError: bool) returns (d: Decision)
      ensures d == if t in rows then Decide(rows[t], k, startupError) else Leave
      ensures !d.Leave? <==> t in rows && Owned(rows[t], k) && Executing(rows[t])
      ensures t in rows && rows[t].status.Canceling? && !d.Leave? ==> d.EndCanceled?
    {
      if t !in rows { return Leave; }
      var r := rows[t];
      if r.token != Some(k) || !(r.status.Running? || r.status.Canceling?) { return Leave; }
      if r.cancelRequested || r.status.Canceling? { return EndCanceled; }
      if startupError { return EndFailed(if r.live.Some? then r.live else r.result); }
      d := EndRequeued;
    }

    /** The write that follows, on the row as it is by then. */
    method WriteDecision(t: nat, k: Act.Token, d: Decision) returns (requeued: bool)
      modifies this
      ensures rows == if t in old(rows) then old(rows)[t := ApplyDecision(old(rows)[t], k, d)] else old(rows)
      ensures requeued <==> d.EndRequeued? && t in old(rows) && old(rows)[t].status.Running? && Owned(old(rows)[t], k)
    {
      if t !in rows { return false; }
      var r := rows[t];
      assert rows[t := r] == rows;
      match d {
        case Leave => return false;
        case EndCanceled => rows := rows[t := MarkCanceled(r, k)]; return false;
        case EndFailed(found) => rows := rows[t := MarkFailed(r, k, found)]; return false;
        case EndRequeued =>
          requeued := r.status.Running? && r.token == Some(k);
          if requeued {
            r := r.(status := Queued, cancelRequested := false, token := None, lease := None, result := if r.retryCodes.None? then None else r.result);
            r := r.(live := None, activity := None);
          }
          rows := rows[t := r];
      }
    }
  }
}
