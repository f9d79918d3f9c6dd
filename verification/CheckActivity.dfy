/** The per-task activity record (app/tasks/activity.py): the phase of the run
    and, for every check item, its phase, its execution number and the two
    requests a user may leave on it.  Every function here is the `change`
    closure of one transaction; who may run it is decided in TaskRows. */
module CheckActivity {
  import opened Options

  type Code = string
  type Token = nat

  datatype TaskPhase = Preparing | Inspecting | Finalizing

  datatype CheckPhase =
    | Pending | Checking | Waiting | Thinking | Emitting | Retrying
    | Canceling | Completed | Failed | Canceled

  datatype Check = Check(phase: CheckPhase, execution: nat, cancelRequested: bool, retryRequested: bool)

  datatype Record = Record(token: Option<Token>, phase: Option<TaskPhase>, checks: map<Code, Check>)

  predicate Terminal(p: CheckPhase) { p.Completed? || p.Failed? || p.Canceled? }

  predicate Cancelable(p: CheckPhase) {
    p.Pending? || p.Checking? || p.Waiting? || p.Thinking? || p.Emitting? || p.Retrying?
  }

  predicate Retryable(p: CheckPhase) { p.Failed? || p.Canceled? || p.Canceling? }

  /** The phases a running request reports. */
  type WorkPhase = p: CheckPhase | Cancelable(p) && !p.Pending? witness Checking

  function Fresh(execution: nat): Check { Check(Pending, execution, false, false) }

  /** A record bound to another token reads as an empty one. */
  function Load(stored: Option<Record>, token: Option<Token>): Record {
    if stored.Some? && stored.value.token == token then stored.value else Record(token, None, map[])
  }

  // ---- transitions --------------------------------------------------------

  function Initialize(r: Record, phase: TaskPhase, checks: map<Code, nat>): Record {
    r.(phase := Some(phase),
       checks := (map c | c in checks :: Fresh(checks[c])) + r.checks)
  }

  function UpdatePhase(r: Record, codes: set<Code>, phase: WorkPhase): Record {
    r.(checks := map c | c in r.checks ::
      if c in codes && !Terminal(r.checks[c].phase) && !r.checks[c].cancelRequested
      then r.checks[c].(phase := phase) else r.checks[c])
  }

  /** Returns the record and whether the item was canceled by its user. */
  function Finish(r: Record, code: Code, failed: bool): (Record, bool) {
    if code !in r.checks then (r, false)
    else
      var item := r.checks[code];
      var phase := if item.cancelRequested then Canceled else if failed then Failed else Completed;
      (r.(checks := r.checks[code := item.(phase := phase)]), item.cancelRequested)
  }

  function Start(r: Record, code: Code): (Record, bool) {
    if code !in r.checks || r.checks[code].cancelRequested || Terminal(r.checks[code].phase) then (r, false)
    else (r.(checks := r.checks[code := r.checks[code].(phase := Checking)]), true)
  }

  /** `selected` are the codes the task will run; the answer is the phase shown
      to the user, or None when the item cannot be canceled. */
  function RequestCancel(r: Record, code: Code, execution: Option<nat>, selected: set<Code>)
    : (Record, Option<CheckPhase>)
  {
    var known := code in r.checks;
    if execution.Some? && execution.value != (if known then r.checks[code].execution else 0) then (r, None)
    else if known && r.checks[code].retryRequested then
      (r.(checks := r.checks[code := r.checks[code].(retryRequested := false)]), Some(r.checks[code].phase))
    else if !known && code !in selected then (r, None)
    else
      var item := if known then r.checks[code] else Fresh(0);
      if !Cancelable(item.phase) && !item.phase.Canceling? then (r, None)
      else
        var phase := if item.phase.Pending? then Canceled else Canceling;
        (r.(checks := r.checks[code := item.(phase := phase, cancelRequested := true)]), Some(phase))
  }

  /** The retries that can start now: requested, and with no execution of the
      same code still busy. */
  function ReadyRetries(r: Record, busy: set<Code>): map<Code, nat> {
    map c | c in r.checks && c !in busy && r.checks[c].retryRequested :: r.checks[c].execution + 1
  }

  function TakeRetries(r: Record, busy: set<Code>): (Record, map<Code, nat>) {
    var ready := ReadyRetries(r, busy);
    var checks := map c | c in r.checks :: if c in ready then Fresh(ready[c]) else r.checks[c];
    (r.(checks := checks, phase := if busy == {} && ready == map[] then Some(Finalizing) else r.phase), ready)
  }

  /** Leaves a retry request on an item of a running task; `item` is the item
      as read, which the record may not hold yet. */
  function RequestRetry(r: Record, code: Code, item: Check): Record {
    r.(checks := r.checks[code := item.(retryRequested := true)])
  }

  // ---- what every transition keeps -----------------------------------------

  /** A cancel request shows as canceling or canceled, and only such a request
      shows as canceling. */
  predicate CheckOk(c: Check) {
    && (c.cancelRequested ==> c.phase.Canceling? || c.phase.Canceled?)
    && (c.phase.Canceling? ==> c.cancelRequested)
  }

  ghost predicate RecordOk(r: Record) { forall c :: c in r.checks ==> CheckOk(r.checks[c]) }

  /** One item moves forward: its execution number never decreases, and within
      one execution a cancel request stays and no finished phase is left for
      an unfinished one. */
  predicate ItemAdvances(a: Check, b: Check) {
    || a.execution < b.execution
    || (a.execution == b.execution && (a.cancelRequested ==> b.cancelRequested) && (Terminal(a.phase) ==> Terminal(b.phase)))
  }

  ghost predicate Advances(a: Record, b: Record) {
    forall c :: c in a.checks ==> c in b.checks && ItemAdvances(a.checks[c], b.checks[c])
  }

  lemma AdvancesTransitive(a: Record, b: Record, c: Record)
    requires Advances(a, b) && Advances(b, c)
    ensures Advances(a, c)
  {
    forall k | k in a.checks ensures k in c.checks && ItemAdvances(a.checks[k], c.checks[k]) {
      assert k in b.checks && ItemAdvances(a.checks[k], b.checks[k]);
      assert ItemAdvances(b.checks[k], c.checks[k]);
    }
  }
}
