/** What a retry queues again (app/tasks/retries.py): which checks a task retry
    takes, which single retries are accepted, and what then waits to run. */
module Retries {
  import opened Options
  import opened TaskRows
  import opened TaskTable
  import Act = CheckActivity

  /** The last result of a code stands at i. */
  predicate LastAt(results: seq<CheckResult>, code: Act.Code, i: nat) {
    i < |results| && results[i].code == code && forall j :: i < j < |results| ==> results[j].code != code
  }

  predicate FirstAt(results: seq<CheckResult>, code: Act.Code, i: nat) {
    i < |results| && results[i].code == code && forall j :: 0 <= j < i ==> results[j].code != code
  }

  predicate NoResult(results: seq<CheckResult>, code: Act.Code) { forall j :: 0 <= j < |results| ==> results[j].code != code }

  lemma {:induction false} PreviousIsLast(results: seq<CheckResult>, code: Act.Code)
    ensures Previous(results, code).None? <==> NoResult(results, code)
    ensures Previous(results, code).Some? ==> exists i: nat :: LastAt(results, code, i) && Previous(results, code) == Some(results[i])
  {
    if results != [] {
      var n := |results| - 1;
      if results[n].code == code {
        assert LastAt(results, code, n);
      } else {
        PreviousIsLast(results[..n], code);
        if Previous(results[..n], code).Some? {
          var i: nat :| LastAt(results[..n], code, i) && Previous(results[..n], code) == Some(results[..n][i]);
          assert LastAt(results, code, i);
        }
        assert forall j :: 0 <= j < n ==> results[..n][j] == results[j];
      }
    }
  }

  lemma {:induction false} FirstIsFirst(results: seq<CheckResult>, code: Act.Code)
    ensures FirstResult(results, code).None? <==> NoResult(results, code)
    ensures FirstResult(results, code).Some? ==> exists i: nat :: FirstAt(results, code, i) && FirstResult(results, code) == Some(results[i])
  {
    if results != [] {
      if results[0].code == code {
        assert FirstAt(results, code, 0);
      } else {
        FirstIsFirst(results[1..], code);
        if FirstResult(results[1..], code).Some? {
          var i: nat :| FirstAt(results[1..], code, i) && FirstResult(results[1..], code) == Some(results[1..][i]);
          assert FirstAt(results, code, i + 1);
        }
        assert forall j :: 0 < j < |results| ==> results[1..][j - 1] == results[j];
      }
    }
  }

  /** The check still needs to run: its last result is no good, or it has none
      and the task that ended owed it one. */
  ghost predicate StillOwed(r: Row, code: Act.Code) {
    var results := Results(r);
    if NoResult(results, code) then (r.status.Failed? || r.status.Canceled?) && (r.retryCodes.None? || code in r.retryCodes.value)
    else exists i: nat :: LastAt(results, code, i) && (results[i].canceled || results[i].error || results[i].incomplete)
  }

  /** The execution that follows the last one. */
  ghost predicate Follows(r: Row, code: Act.Code, execution: nat) {
    if NoResult(Results(r), code) then execution == 1
    else exists i: nat :: LastAt(Results(r), code, i) && execution == Results(r)[i].execution + 1
  }

  lemma OneLast(results: seq<CheckResult>, code: Act.Code, i: nat, k: nat)
    requires LastAt(results, code, i) && LastAt(results, code, k)
    ensures i == k
  {
  }

  lemma OwedIsNeeded(r: Row, code: Act.Code)
    ensures NeedsRetry(r, code) <==> StillOwed(r, code)
    ensures Follows(r, code, NextExecution(r, code))
  {
    PreviousIsLast(Results(r), code);
    if !NoResult(Results(r), code) {
      var i: nat :| LastAt(Results(r), code, i) && Previous(Results(r), code) == Some(Results(r)[i]);
      forall k: nat | LastAt(Results(r), code, k) ensures k == i { OneLast(Results(r), code, i, k); }
    }
  }

  /** The row waits without claim, live results or cancel request; what was
      stored stays to be merged with. */
  predicate WaitsAgain(r: Row, q: Row) {
    && q.status.Queued? && !q.cancelRequested && q.token.None? && q.lease.None? && q.live.None?
    && q.result == r.result && q.snapshot == r.snapshot && q.owner == r.owner && q.createdAt == r.createdAt
    && View(q).phase == Some(Act.Preparing)
  }

  /** Check c of the row is waiting for this execution, with no request on it. */
  predicate Waits(q: Row, code: Act.Code, execution: nat) {
    code in View(q).checks && View(q).checks[code] == Act.Check(Act.Pending, execution, false, false)
  }

  /** A task retry succeeds exactly on an ended task that still owes a check;
      then exactly the owed checks of the snapshot are selected and recorded,
      each waiting for the execution after its last. */
  lemma TaskRetryMeans(r: Row, code: Act.Code)
    ensures var q := TaskRows.RetryTask(r);
      if (r.status.Failed? || r.status.Partial? || r.status.Canceled?) && exists c :: c in r.snapshot && StillOwed(r, c) then
        && WaitsAgain(r, q)
        && (code in Selected(q) <==> code in r.snapshot && StillOwed(r, code))
        && (code in View(q).checks <==> code in Selected(q))
        && (code in Selected(q) ==> exists n: nat :: Follows(r, code, n) && Waits(q, code, n))
      else q == r
  {
    var scope := RetryScope(r, |r.snapshot|);
    assert r.snapshot[..|r.snapshot|] == r.snapshot;
    RetryScopeMeans(r, |r.snapshot|, code);
    OwedIsNeeded(r, code);
    if scope != [] {
      RetryScopeMeans(r, |r.snapshot|, scope[0]);
      OwedIsNeeded(r, scope[0]);
    }
    forall c | c in r.snapshot && StillOwed(r, c) ensures c in scope {
      RetryScopeMeans(r, |r.snapshot|, c);
      OwedIsNeeded(r, c);
    }
  }

  // ---- a single retry --------------------------------------------------------------------------------

  /** The first result of a check, if any, and what it says. */
  ghost predicate FirstIs(r: Row, code: Act.Code, execution: nat, canceled: bool, error: bool) {
    exists i: nat :: FirstAt(Results(r), code, i) && Results(r)[i].execution == execution && Results(r)[i].canceled == canceled && Results(r)[i].error == error
  }

  lemma OneFirst(results: seq<CheckResult>, code: Act.Code, i: nat, k: nat)
    requires FirstAt(results, code, i) && FirstAt(results, code, k)
    ensures i == k
  {
  }

  /** What the stored results let a user retry: a check canceled or failed in
      that execution, or never run by a task that was canceled or failed. */
  ghost predicate StoredAllows(r: Row, code: Act.Code, execution: nat) {
    || FirstIs(r, code, execution, true, false) || FirstIs(r, code, execution, true, true) || FirstIs(r, code, execution, false, true)
    || (NoResult(Results(r), code) && execution == 0 && (r.status.Canceled? || r.status.Failed?))
  }

  /** What the record of a waiting or running task lets a user retry. */
  predicate RecordAllows(r: Row, code: Act.Code, execution: nat) {
    && code in View(r).checks && View(r).checks[code].execution == execution && !View(r).checks[code].retryRequested
    && (View(r).checks[code].phase.Failed? || View(r).checks[code].phase.Canceled? || View(r).checks[code].phase.Canceling?)
  }

  lemma StoredItem(r: Row, code: Act.Code)
    requires !((r.status.Queued? || r.status.Running?) && code in View(r).checks)
    ensures var item := RetryItem(r, code);
      && !item.retryRequested && !item.cancelRequested
      && if NoResult(Results(r), code) then item.execution == 0 else exists i: nat :: FirstAt(Results(r), code, i) && item.execution == Results(r)[i].execution
  {
    FirstIsFirst(Results(r), code);
  }

  lemma StoredMeans(r: Row, code: Act.Code, execution: nat)
    requires !((r.status.Queued? || r.status.Running?) && code in View(r).checks)
    requires (r.status.Queued? || r.status.Running?) && r.retryCodes.Some? ==> code !in r.retryCodes.value
    ensures var item := RetryItem(r, code); item.execution == execution && Act.Retryable(item.phase) <==> StoredAllows(r, code, execution)
  {
    FirstIsFirst(Results(r), code);
    if !NoResult(Results(r), code) {
      var i: nat :| FirstAt(Results(r), code, i) && FirstResult(Results(r), code) == Some(Results(r)[i]);
      forall k: nat | FirstAt(Results(r), code, k) ensures k == i { OneFirst(Results(r), code, i, k); }
      if Results(r)[i].canceled || Results(r)[i].error {
        assert FirstIs(r, code, Results(r)[i].execution, Results(r)[i].canceled, Results(r)[i].error);
      }
    }
  }

  /** A single retry is accepted exactly when its task may take one and the
      check, in the record or else in the stored results, failed or was
      canceled in the execution the user saw. */
  lemma SingleRetryAccepted(r: Row, code: Act.Code, execution: nat)
    ensures RetryAccepted(r, code, execution) <==>
      && code in r.snapshot && !r.status.Canceling? && !(r.media && (r.status.Queued? || r.status.Running?))
      && (r.status.Running? ==> View(r).phase != Some(Act.Finalizing))
      && if (r.status.Queued? || r.status.Running?) && code in View(r).checks then RecordAllows(r, code, execution)
         else
           && StoredAllows(r, code, execution)
           && ((r.status.Queued? || r.status.Running?) && r.retryCodes.Some? ==> code !in r.retryCodes.value)
  {
    if !((r.status.Queued? || r.status.Running?) && code in View(r).checks) {
      StoredItem(r, code);
      if (r.status.Queued? || r.status.Running?) && r.retryCodes.Some? && code in r.retryCodes.value {
        assert RetryItem(r, code).phase.Pending?;
      } else {
        StoredMeans(r, code, execution);
      }
    }
  }

  /** What it leads to: a running worker is left a request for the very execution
      that ended, a waiting task takes the next execution along, and an ended
      task waits again for this check alone. */
  lemma SingleRetryMeans(r: Row, code: Act.Code, execution: nat)
    requires RetryAccepted(r, code, execution)
    ensures var q := TaskRows.RetryCheck(r, code, execution);
      && code in View(q).checks && (r.retryCodes.Some? || !Active(r) ==> code in Selected(q))
      && (r.status.Running? ==>
            q.status.Running? && q.token == r.token && View(q).checks[code].execution == execution && View(q).checks[code].retryRequested)
      && (r.status.Queued? ==> q.status.Queued? && Waits(q, code, execution + 1))
      && (!Active(r) ==> WaitsAgain(r, q) && Waits(q, code, execution + 1) && Selected(q) == {code} && View(q).checks.Keys == {code})
      && (Active(r) ==> q.status == r.status && forall c <- View(r).checks :: c != code ==> c in View(q).checks && View(q).checks[c] == View(r).checks[c])
  {
  }
}
