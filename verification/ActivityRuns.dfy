/** What users and worker do to one activity record over any sequence of
    changes: a cancel decides how an execution ends, and an end is final. */
module ActivityRuns {
  import opened Options
  import opened CheckActivity
  import TaskRows
  import TaskSafety

  /** A change by the worker, or by a user; `found` is the item a retry reads
      from the stored results when the record has none. */
  datatype Change =
    | Worker(op: TaskRows.ActivityOp)
    | CancelOne(code: Code, execution: Option<nat>, selected: set<Code>)
    | RetryOne(code: Code, found: Check)

  function ApplyChange(r: Record, c: Change): Record {
    match c
    case Worker(op) => TaskRows.ApplyOp(r, op)
    case CancelOne(code, execution, selected) => RequestCancel(r, code, execution, selected).0
    case RetryOne(code, found) =>
      var item := if code in r.checks then r.checks[code] else found;
      if Retryable(item.phase) && !item.retryRequested && CheckOk(item) then RequestRetry(r, code, item) else r
  }

  function ApplyAll(r: Record, changes: seq<Change>): Record
    decreases |changes|
  {
    if changes == [] then r else ApplyAll(ApplyChange(r, changes[0]), changes[1..])
  }

  lemma ChangeAdvances(r: Record, c: Change)
    requires RecordOk(r)
    ensures Advances(r, ApplyChange(r, c)) && RecordOk(ApplyChange(r, c))
  {
    match c
    case Worker(op) => TaskSafety.OpAdvances(r, op);
    case CancelOne(code, execution, selected) => CancelAdvances(r, code, execution, selected);
    case RetryOne(_, _) =>
  }

  lemma CancelAdvances(r: Record, code: Code, execution: Option<nat>, selected: set<Code>)
    requires RecordOk(r)
    ensures Advances(r, RequestCancel(r, code, execution, selected).0) && RecordOk(RequestCancel(r, code, execution, selected).0)
  {
  }

  lemma {:induction false} ChangesAdvance(r: Record, changes: seq<Change>)
    requires RecordOk(r)
    ensures Advances(r, ApplyAll(r, changes)) && RecordOk(ApplyAll(r, changes))
    decreases |changes|
  {
    if changes != [] {
      var next := ApplyChange(r, changes[0]);
      ChangeAdvances(r, changes[0]);
      ChangesAdvance(next, changes[1..]);
      AdvancesTransitive(r, next, ApplyAll(r, changes));
    }
  }

  /** The check is the same execution in both records. */
  predicate SameExecution(a: Record, b: Record, code: Code) {
    code in a.checks && code in b.checks && a.checks[code].execution == b.checks[code].execution
  }

  /** A cancel request that is not just the withdrawal of a retry. */
  predicate Cancels(r: Record, code: Code, execution: Option<nat>, selected: set<Code>) {
    RequestCancel(r, code, execution, selected).1.Some? && !(code in r.checks && r.checks[code].retryRequested)
  }

  lemma CancelMarks(r: Record, code: Code, execution: Option<nat>, selected: set<Code>)
    requires RecordOk(r) && Cancels(r, code, execution, selected)
    ensures var q := RequestCancel(r, code, execution, selected).0; RecordOk(q) && code in q.checks && q.checks[code].cancelRequested
  {
  }

  /** A cancel that was answered decides how its execution ends: whatever
      follows, until a retry replaces the execution, the check shows as
      canceling or canceled, cannot start, and when it ends, it ends canceled,
      failed or not. */
  lemma CancelDecides(r: Record, code: Code, execution: Option<nat>, selected: set<Code>, changes: seq<Change>, failed: bool)
    requires RecordOk(r) && Cancels(r, code, execution, selected)
    ensures var q := RequestCancel(r, code, execution, selected).0;
      var v := ApplyAll(q, changes);
      && code in v.checks && v.checks[code].execution >= q.checks[code].execution
      && (SameExecution(q, v, code) ==>
            && (v.checks[code].phase.Canceling? || v.checks[code].phase.Canceled?)
            && !Start(v, code).1
            && Finish(v, code, failed).1 && Finish(v, code, failed).0.checks[code].phase == Canceled)
  {
    var q := RequestCancel(r, code, execution, selected).0;
    CancelMarks(r, code, execution, selected);
    ChangesAdvance(q, changes);
    assert code in q.checks;
  }

  /** An execution that has ended stays ended: whatever follows, until a retry
      replaces it, it cannot start, no phase report changes it, and a cancel is
      refused unless it withdraws a retry. */
  lemma EndIsFinal(r: Record, code: Code, failed: bool, changes: seq<Change>, codes: set<Code>, work: WorkPhase,
                   execution: Option<nat>, selected: set<Code>)
    requires RecordOk(r) && code in r.checks
    ensures var q := Finish(r, code, failed).0;
      var v := ApplyAll(q, changes);
      && code in v.checks && v.checks[code].execution >= q.checks[code].execution
      && (SameExecution(q, v, code) ==>
            && Terminal(v.checks[code].phase)
            && !Start(v, code).1
            && UpdatePhase(v, codes, work).checks[code] == v.checks[code]
            && (!v.checks[code].retryRequested ==> RequestCancel(v, code, execution, selected) == (v, None)))
  {
    var q := Finish(r, code, failed).0;
    ChangeAdvances(r, Worker(TaskRows.FinishCheck(code, failed)));
    ChangesAdvance(q, changes);
    assert code in q.checks;
  }

  /** A retry and a cancel of the same check undo each other: the cancel of a
      check whose retry was just asked for gives the record back as it was. */
  lemma CancelUndoesRetry(r: Record, code: Code, execution: Option<nat>, selected: set<Code>)
    requires code in r.checks && !r.checks[code].retryRequested && Retryable(r.checks[code].phase)
    requires execution.Some? ==> execution.value == r.checks[code].execution
    ensures RequestCancel(RequestRetry(r, code, r.checks[code]), code, execution, selected) == (r, Some(r.checks[code].phase))
  {
    var asked := RequestRetry(r, code, r.checks[code]);
    assert RequestCancel(asked, code, execution, selected).0.checks == r.checks;
  }
}
