/** What every reachable state of the scheduling loop keeps: one execution per
    code at a time, stored outcomes that agree with the record, and a
    finalizing phase that leaves no accepted retry behind. */
module SchedulerSafety {
  import opened Options
  import opened Act = CheckActivity
  import opened CheckScheduler

  // ---- one code -------------------------------------------------------------------------

  /** What a user may do to one recorded item. */
  predicate UserMoves(a: Check, b: Check) {
    && b.execution == a.execution
    && ( || (b.phase == a.phase && b.cancelRequested == a.cancelRequested)
         || (a.phase.Pending? && b.phase.Canceled? && b.cancelRequested)
         || (!Terminal(a.phase) && !a.phase.Pending? && b.phase.Canceling? && b.cancelRequested))
  }

  /** Within one execution a cancel request stays and a finished phase stays;
      only an earlier cancellation whose start is refused ends as failed. */
  predicate Forward(a: Check, b: Check) {
    || a.execution < b.execution
    || ( && a.execution == b.execution && (a.cancelRequested ==> b.cancelRequested)
         && (Terminal(a.phase) ==> b.phase == a.phase || (a.phase.Canceled? && !a.cancelRequested && b.phase.Failed?)))
  }

  predicate StageFits(stage: Stage, k: Check) {
    match stage
    case InPool => Startable(k)
    case Entered => Startable(k)
    case Starting => !k.phase.Completed?
    case Working => !Terminal(k.phase) || k.cancelRequested
    case MustFail => !k.phase.Completed?
    case Saving(t) => Agrees(t, k.phase)
    case Ended => Terminal(k.phase)
    case Crashed => true
  }

  predicate ItemOk(k: Check) { CheckOk(k) && (k.retryRequested ==> Retryable(k.phase)) }

  lemma UserKeepsStage(stage: Stage, a: Check, b: Check)
    requires StageFits(stage, a) && UserMoves(a, b) && CheckOk(a)
    ensures StageFits(stage, b) && Forward(a, b)
  {
  }

  // ---- the invariant -----------------------------------------------------------------------

  ghost predicate RecordInv(r: Record) {
    && (forall c :: c in r.checks ==> ItemOk(r.checks[c]))
    && (r.phase == Some(Finalizing) ==> forall c :: c in r.checks ==> !r.checks[c].retryRequested)
  }

  /** The running execution of a code is the recorded one. */
  predicate Current(s: State, c: Code) {
    c in s.signals && c in s.record.checks && (s.owned ==> s.signals[c].execution == s.record.checks[c].execution)
  }

  predicate JobOk(s: State, j: JobId)
    requires j in s.futures
  {
    var job := s.futures[j];
    && j < s.nextJob && job.code in s.items && Current(s, job.code)
    && (job.stage.InPool? || job.execution == s.signals[job.code].execution)
    && (job.stage.Starting? && s.owned && !s.signals[job.code].raised ==> StageFits(Working, s.record.checks[job.code]))
    && (job.stage.Saving? ==> job.stage.stored.execution == job.execution)
    && (job.stage.Ended? <==> job.code in s.completed)
    && (s.owned ==> StageFits(job.stage, s.record.checks[job.code]))
  }

  predicate Submits(s: State, c: Code) { s.loop.Submitting? && c in s.loop.retries }

  ghost predicate HasJob(s: State, c: Code) { exists j :: j in s.futures && s.futures[j].code == c }

  ghost predicate CodeOk(s: State, c: Code) {
    && (c in s.completed || HasJob(s, c) || Submits(s, c))
    && (!Submits(s, c) ==> Current(s, c))
    && (c in s.completed && !Submits(s, c) ==>
          && s.completed[c].execution == s.signals[c].execution
          && (s.owned ==> Agrees(s.completed[c], s.record.checks[c].phase)))
  }

  predicate RetryOk(s: State, c: Code, e: nat) {
    && c in s.record.checks
    && (s.owned ==> e == s.record.checks[c].execution && Startable(s.record.checks[c]))
  }

  /** No two futures run the same code. */
  ghost predicate OneJobPerCode(s: State) {
    forall j, k :: j in s.futures && k in s.futures && s.futures[j].code == s.futures[k].code ==> j == k
  }

  ghost predicate JobsOk(s: State) { OneJobPerCode(s) && forall j :: j in s.futures ==> JobOk(s, j) }

  ghost predicate ItemsOk(s: State) {
    && (forall i, j :: 0 <= i < j < |s.items| ==> s.items[i] != s.items[j])
    && (!s.loop.Aborted? ==> forall c :: c in s.items ==> CodeOk(s, c))
    && (forall c :: c in s.completed ==> c in s.items)
  }

  predicate WaitsCanceled(job: Job, seen: map<Code, Check>) {
    job.stage.InPool? && job.code in seen && seen[job.code].phase.Canceled?
  }

  predicate SeenCanceled(s: State, c: Code) { c in s.record.checks && s.record.checks[c].phase.Canceled? }

  ghost predicate LoopOk(s: State) {
    match s.loop
    case Submitting(retries) => forall c :: c in retries ==> RetryOk(s, c, retries[c]) && !HasJob(s, c)
    case Harvesting(seen) => s.owned ==> forall j :: j in s.futures && WaitsCanceled(s.futures[j], seen) ==> SeenCanceled(s, s.futures[j].code)
    case Done => s.futures == map[] && s.record.phase == Some(Finalizing) && forall c :: c in s.items ==> Finished(s, c)
    case _ => true
  }

  ghost predicate Inv(s: State) {
    && RecordInv(s.record)
    && (forall c <- s.selected :: c in s.record.checks)
    && JobsOk(s) && ItemsOk(s) && LoopOk(s)
  }

  /** At the exit: the stored outcome is the latest execution's. */
  predicate Finished(s: State, c: Code) {
    c in s.completed && c in s.record.checks && s.completed[c].execution == s.record.checks[c].execution
    && Agrees(s.completed[c], s.record.checks[c].phase)
  }

  // ---- steps that only touch the record -----------------------------------------------------------

  /** The record moves as users may move it; nothing else changes but history. */
  ghost predicate UserOnly(s: State, t: State) {
    && t == s.(record := t.record, accepted := t.accepted, withdrawn := t.withdrawn)
    && RecordInv(t.record) && t.record.phase == s.record.phase
    && (forall c :: c in s.record.checks ==> c in t.record.checks && UserMoves(s.record.checks[c], t.record.checks[c]))
  }

  lemma SameCodes(s: State, t: State, c: Code)
    requires t.futures.Keys == s.futures.Keys && forall j :: j in s.futures ==> t.futures[j].code == s.futures[j].code
    ensures HasJob(t, c) <==> HasJob(s, c)
  {
    if HasJob(s, c) { var j :| j in s.futures && s.futures[j].code == c; assert t.futures[j].code == c; }
    if HasJob(t, c) { var j :| j in t.futures && t.futures[j].code == c; assert s.futures[j].code == c; }
  }

  lemma UserOnlyKeeps(s: State, t: State)
    requires Inv(s) && UserOnly(s, t)
    ensures Inv(t)
  {
    forall j | j in t.futures ensures JobOk(t, j) {
      assert JobOk(s, j);
      var c := s.futures[j].code;
      assert UserMoves(s.record.checks[c], t.record.checks[c]);
      if s.owned { UserKeepsStage(s.futures[j].stage, s.record.checks[c], t.record.checks[c]); }
    }
    forall c | c in t.items && !t.loop.Aborted? ensures CodeOk(t, c) {
      assert CodeOk(s, c);
      SameCodes(s, t, c);
      if c in s.record.checks { assert UserMoves(s.record.checks[c], t.record.checks[c]); }
    }
    UserOnlyLoop(s, t);
  }

  lemma UserOnlyLoop(s: State, t: State)
    requires Inv(s) && UserOnly(s, t)
    ensures LoopOk(t)
  {
    forall c | c in s.record.checks ensures UserMoves(s.record.checks[c], t.record.checks[c]) {}
    if t.loop.Submitting? {
      forall c | c in t.loop.retries ensures RetryOk(t, c, t.loop.retries[c]) && !HasJob(t, c) {
        assert RetryOk(s, c, s.loop.retries[c]) && !HasJob(s, c);
        SameCodes(s, t, c);
      }
    }
    if t.loop.Done? {
      forall c | c in t.items ensures Finished(t, c) { assert Finished(s, c); }
    }
  }

  lemma CancelIsUserOnly(s: State, code: Code, execution: Option<nat>)
    requires Inv(s)
    ensures UserOnly(s, CancelStep(s, code, execution))
  {
  }

  lemma RetryIsUserOnly(s: State, code: Code, expected: nat, found: Check)
    requires Inv(s)
    ensures UserOnly(s, RetryStep(s, code, expected, found))
  {
  }

  // ---- jobs -------------------------------------------------------------------------------------------

  predicate JobRecordMoves(s: State, t: State, c: Code) {
    && t.record.phase == s.record.phase && t.record.checks.Keys == s.record.checks.Keys
    && (s.owned || t.record == s.record)
    && (c in s.record.checks ==>
          var a, b := s.record.checks[c], t.record.checks[c];
          Forward(a, b) && b.execution == a.execution && ItemOk(b) && b.retryRequested == a.retryRequested)
  }

  predicate Stores(s: State, t: State, c: Code) {
    || t.completed == s.completed
    || ( && c in t.completed && t.completed == s.completed[c := t.completed[c]] && c in s.items && c in t.record.checks && c in s.signals
         && t.completed[c].execution == s.signals[c].execution
         && (s.owned ==> Agrees(t.completed[c], t.record.checks[c].phase)))
  }

  /** No signal is replaced or lowered. */
  ghost predicate SignalsStay(s: State, t: State) {
    && t.signals.Keys == s.signals.Keys
    && forall x :: x in s.signals ==> t.signals[x].execution == s.signals[x].execution && (s.signals[x].raised ==> t.signals[x].raised)
  }

  /** One code's item, signal and job move; every other code is untouched. */
  ghost predicate JobMoves(s: State, t: State, j: JobId)
    requires j in s.futures
  {
    var c := s.futures[j].code;
    && t == s.(record := t.record, signals := t.signals, futures := t.futures, completed := t.completed)
    && t.futures.Keys == s.futures.Keys && t.futures[j].code == c
    && (forall k :: k in s.futures && k != j ==> t.futures[k] == s.futures[k])
    && (forall x :: x in s.record.checks && x != c ==> x in t.record.checks && t.record.checks[x] == s.record.checks[x])
    && SignalsStay(s, t)
    && (s.futures[j].stage.Ended? || t.futures[j].stage.InPool? ==> t == s)
    && JobRecordMoves(s, t, c) && Stores(s, t, c) && JobOk(t, j)
  }

  lemma JobMovesJobs(s: State, t: State, j: JobId)
    requires JobsOk(s) && j in s.futures && JobMoves(s, t, j)
    ensures JobsOk(t)
  {
    forall k | k in t.futures ensures JobOk(t, k) {
      assert JobOk(s, k);
      if k != j { assert s.futures[k].code != s.futures[j].code; }
    }
  }

  lemma JobMovesCode(s: State, t: State, j: JobId, x: Code)
    requires j in s.futures && JobOk(s, j) && JobMoves(s, t, j) && CodeOk(s, x)
    requires HasJob(t, x) <==> HasJob(s, x)
    ensures CodeOk(t, x)
  {
  }

  lemma JobMovesItems(s: State, t: State, j: JobId)
    requires JobsOk(s) && ItemsOk(s) && j in s.futures && JobMoves(s, t, j)
    ensures ItemsOk(t)
  {
    assert JobOk(s, j);
    forall x | x in t.items && !t.loop.Aborted? ensures CodeOk(t, x) {
      SameCodes(s, t, x);
      JobMovesCode(s, t, j, x);
    }
  }

  lemma JobMovesLoop(s: State, t: State, j: JobId)
    requires Inv(s) && j in s.futures && JobMoves(s, t, j)
    ensures LoopOk(t) && RecordInv(t.record)
  {
    var c := s.futures[j].code;
    assert JobOk(s, j);
    assert HasJob(s, c);
    if t.loop.Submitting? {
      forall x | x in t.loop.retries ensures RetryOk(t, x, t.loop.retries[x]) && !HasJob(t, x) {
        assert RetryOk(s, x, s.loop.retries[x]) && !HasJob(s, x);
        SameCodes(s, t, x);
      }
    }
    if t.loop.Harvesting? && t.owned {
      forall k | k in t.futures && WaitsCanceled(t.futures[k], t.loop.seen) ensures SeenCanceled(t, t.futures[k].code) {
        assert SeenCanceled(s, s.futures[k].code);
      }
    }
  }

  lemma JobMovesKeeps(s: State, t: State, j: JobId)
    requires Inv(s) && j in s.futures && JobMoves(s, t, j)
    ensures Inv(t)
  {
    JobMovesJobs(s, t, j);
    JobMovesItems(s, t, j);
    JobMovesLoop(s, t, j);
  }

  /** Local facts of one job are all its steps need. */
  ghost predicate Local(s: State, j: JobId) {
    j in s.futures && JobOk(s, j) && ItemOk(s.record.checks[s.futures[j].code])
  }

  lemma QuietStepMoves(s: State, step: Step)
    requires OfJob(step) && Local(s, step.job)
    requires step.Enter? || step.EnsureActive? || step.Fail? || step.Crash? || step.Save?
    ensures JobMoves(s, Apply(s, step), step.job)
  {
    if step.Enter? || step.Save? { PoolStepMoves(s, step); }
  }

  lemma PoolStepMoves(s: State, step: Step)
    requires (step.Enter? || step.Save?) && Local(s, step.job)
    ensures JobMoves(s, Apply(s, step), step.job)
  {
  }

  lemma StartMoves(s: State, j: JobId)
    requires Local(s, j)
    ensures JobMoves(s, Apply(s, StartCheck(j)), j)
  {
  }

  lemma ReportMoves(s: State, j: JobId, work: WorkPhase)
    requires Local(s, j)
    ensures JobMoves(s, Apply(s, Report(j, work)), j)
  {
  }

  /** An item that was worked on ends, and every other item stays. */
  lemma FinishMoves(r: Record, c: Code, failed: bool)
    requires c in r.checks && ItemOk(r.checks[c]) && StageFits(Working, r.checks[c])
    ensures var (q, canceled) := Finish(r, c, failed);
      && q.phase == r.phase && q.checks.Keys == r.checks.Keys && (forall x :: x in r.checks && x != c ==> q.checks[x] == r.checks[x])
      && canceled == r.checks[c].cancelRequested && Forward(r.checks[c], q.checks[c]) && ItemOk(q.checks[c])
      && q.checks[c].execution == r.checks[c].execution && q.checks[c].retryRequested == r.checks[c].retryRequested
      && (if canceled then q.checks[c].phase.Canceled? else if failed then q.checks[c].phase.Failed? else q.checks[c].phase.Completed?)
  {
  }

  lemma SucceedMoves(s: State, j: JobId, failedRounds: bool)
    requires Local(s, j)
    ensures JobMoves(s, Apply(s, Succeed(j, failedRounds)), j)
  {
    if s.futures[j].stage.Working? && s.owned { FinishMoves(s.record, s.futures[j].code, failedRounds); }
  }

  lemma RecordFailureMoves(s: State, j: JobId)
    requires Local(s, j)
    ensures JobMoves(s, Apply(s, RecordFailure(j)), j)
  {
  }

  lemma JobStepMoves(s: State, step: Step)
    requires OfJob(step) && Local(s, step.job)
    ensures JobMoves(s, Apply(s, step), step.job)
  {
    match step
    case StartCheck(j) => StartMoves(s, j);
    case Report(j, work) => ReportMoves(s, j, work);
    case Succeed(j, failedRounds) => SucceedMoves(s, j, failedRounds);
    case RecordFailure(j) => RecordFailureMoves(s, j);
    case _ => QuietStepMoves(s, step);
  }

  lemma JobStepKeeps(s: State, step: Step)
    requires Inv(s) && OfJob(step) && step.job in s.futures
    ensures Inv(Apply(s, step)) && JobMoves(s, Apply(s, step), step.job)
  {
    assert JobOk(s, step.job);
    JobStepMoves(s, step);
    JobMovesKeeps(s, Apply(s, step), step.job);
  }

  // ---- the scheduling loop ----------------------------------------------------------------------------

  /** Fields an invariant does not tie to the loop stay; the loop moves on. */
  lemma TurnKeeps(s: State, t: State)
    requires Inv(s) && t == s.(loop := t.loop, owned := t.owned, signals := t.signals)
    requires !s.loop.Submitting? || s.loop.retries == map[] || t.loop == s.loop || t.loop.Aborted?
    requires (t.owned ==> s.owned) && (s.loop.Aborted? ==> t.loop.Aborted?)
    requires SignalsStay(s, t)
    requires t.loop != s.loop ==> !t.loop.Done? && (t.loop.Submitting? ==> t.loop.retries == map[])
    requires t.loop != s.loop && t.loop.Harvesting? && t.owned ==> t.loop.seen == s.record.checks
    ensures Inv(t)
  {
    forall j | j in t.futures ensures JobOk(t, j) { assert JobOk(s, j); }
    forall c ensures HasJob(t, c) <==> HasJob(s, c) { SameCodes(s, t, c); }
    forall c | c in t.items && !t.loop.Aborted? ensures CodeOk(t, c) { assert CodeOk(s, c); }
    if t.loop.Submitting? && t.loop == s.loop {
      forall c | c in t.loop.retries ensures RetryOk(t, c, t.loop.retries[c]) && !HasJob(t, c) {
        assert RetryOk(s, c, s.loop.retries[c]) && !HasJob(s, c);
      }
    }
    if t.loop.Done? {
      forall c | c in t.items ensures Finished(t, c) { assert Finished(s, c); }
    }
  }

  /** An ended or canceled job leaves `futures` with its result stored. */
  lemma RemoveKeeps(s: State, t: State, j: JobId)
    requires Inv(s) && j in s.futures && t == s.(futures := s.futures - {j}, completed := t.completed)
    requires var c := s.futures[j].code; c in t.completed && Stores(s, t, c)
    requires !s.loop.Submitting?
    ensures Inv(t)
  {
    var c := s.futures[j].code;
    assert JobOk(s, j);
    forall k | k in t.futures ensures JobOk(t, k) {
      assert JobOk(s, k) && s.futures[k].code != c;
    }
    forall x | x in t.items && !t.loop.Aborted? ensures CodeOk(t, x) {
      assert CodeOk(s, x);
      if HasJob(s, x) && x != c { var k :| k in s.futures && s.futures[k].code == x; assert k in t.futures; }
    }
  }

  lemma HarvestKeeps(s: State, j: JobId)
    requires Inv(s)
    ensures Inv(HarvestStep(s, j))
  {
    if CanHarvest(s, j) {
      assert JobOk(s, j);
      assert s.owned ==> SeenCanceled(s, s.futures[j].code);
      RemoveKeeps(s, HarvestStep(s, j), j);
    }
  }

  lemma CollectKeeps(s: State, j: JobId)
    requires Inv(s)
    ensures Inv(CollectStep(s, j))
  {
    if s.loop.AwaitingJobs? && j in s.futures {
      assert JobOk(s, j);
      if s.futures[j].stage.Crashed? { TurnKeeps(s, CollectStep(s, j)); }
      else if s.futures[j].stage.Ended? { RemoveKeeps(s, CollectStep(s, j), j); }
    }
  }

  lemma BusyIsHasJob(s: State, c: Code)
    ensures c in Busy(s) <==> HasJob(s, c)
  {
  }

  /** What taking retries does to the record. */
  lemma TakeMoves(r: Record, busy: set<Code>, c: Code)
    requires RecordInv(r) && c in r.checks
    ensures var (t, ready) := TakeRetries(r, busy);
      && c in t.checks && Forward(r.checks[c], t.checks[c]) && ItemOk(t.checks[c])
      && (c !in ready ==> t.checks[c] == r.checks[c] && (c !in busy ==> !r.checks[c].retryRequested))
      && (c in ready ==> c !in busy && r.checks[c].retryRequested && t.checks[c] == Fresh(ready[c]) && ready[c] == r.checks[c].execution + 1)
  {
  }

  lemma TakeRecord(r: Record, busy: set<Code>)
    requires RecordInv(r)
    ensures RecordInv(TakeRetries(r, busy).0)
    ensures TakeRetries(r, busy).0.checks.Keys == r.checks.Keys
  {
    var t := TakeRetries(r, busy).0;
    forall c | c in t.checks ensures ItemOk(t.checks[c]) { TakeMoves(r, busy, c); }
    if t.phase == Some(Finalizing) {
      forall c | c in t.checks ensures !t.checks[c].retryRequested { TakeMoves(r, busy, c); }
    }
  }

  predicate TakesNow(s: State) {
    s.loop.Taking? && s.owned && (Busy(s) == {} || ReadyRetries(s.record, Busy(s)) != map[])
  }

  lemma TakeJobs(s: State)
    requires Inv(s) && TakesNow(s)
    ensures JobsOk(TakeStep(s))
  {
    var t := TakeStep(s);
    forall j | j in t.futures ensures JobOk(t, j) {
      assert JobOk(s, j);
      TakeMoves(s.record, Busy(s), s.futures[j].code);
    }
  }

  lemma TakeItems(s: State)
    requires Inv(s) && TakesNow(s)
    ensures ItemsOk(TakeStep(s))
  {
    var t := TakeStep(s);
    forall c | c in t.items && !t.loop.Aborted? ensures CodeOk(t, c) {
      assert CodeOk(s, c);
      SameCodes(s, t, c);
      if c in s.record.checks { TakeMoves(s.record, Busy(s), c); }
    }
  }

  lemma TakeLoop(s: State)
    requires Inv(s) && TakesNow(s)
    ensures LoopOk(TakeStep(s))
  {
    var t := TakeStep(s);
    var ready := ReadyRetries(s.record, Busy(s));
    if t.loop.Submitting? {
      forall c | c in ready ensures RetryOk(t, c, ready[c]) && !HasJob(t, c) {
        TakeMoves(s.record, Busy(s), c);
        SameCodes(s, t, c);
        BusyIsHasJob(s, c);
      }
    } else {
      assert s.futures == map[] && Busy(s) == {} && ready == map[];
      forall c | c in t.items ensures Finished(t, c) {
        assert CodeOk(s, c) && !HasJob(s, c);
        TakeMoves(s.record, {}, c);
      }
    }
  }

  lemma TakeKeeps(s: State)
    requires Inv(s)
    ensures Inv(TakeStep(s))
  {
    if TakesNow(s) {
      TakeRecord(s.record, Busy(s));
      TakeJobs(s);
      TakeItems(s);
      TakeLoop(s);
    } else if s.loop.Taking? {
      TurnKeeps(s, TakeStep(s));
    }
  }

  lemma ResubmitJobs(s: State, code: Code)
    requires Inv(s) && Submits(s, code)
    ensures JobsOk(ResubmitStep(s, code))
  {
    var t := ResubmitStep(s, code);
    assert RetryOk(s, code, s.loop.retries[code]) && !HasJob(s, code);
    forall j | j in t.futures ensures JobOk(t, j) {
      if j in s.futures { assert JobOk(s, j) && s.futures[j].code != code; }
    }
    assert forall j :: j in s.futures ==> s.futures[j].code != code;
  }

  lemma ResubmitItems(s: State, code: Code)
    requires Inv(s) && Submits(s, code)
    ensures ItemsOk(ResubmitStep(s, code))
  {
    var t := ResubmitStep(s, code);
    assert RetryOk(s, code, s.loop.retries[code]) && !HasJob(s, code);
    forall j | j in s.futures ensures j in t.futures && t.futures[j] == s.futures[j] { assert JobOk(s, j); }
    forall c | c in t.items && !t.loop.Aborted? ensures CodeOk(t, c) {
      if c == code {
        assert t.futures[s.nextJob].code == code;
        assert HasJob(t, code);
      } else {
        assert c in s.items && CodeOk(s, c);
        if HasJob(s, c) { var j :| j in s.futures && s.futures[j].code == c; assert t.futures[j].code == c; }
      }
    }
  }

  lemma ResubmitLoop(s: State, code: Code)
    requires Inv(s) && Submits(s, code)
    ensures LoopOk(ResubmitStep(s, code))
  {
    var t := ResubmitStep(s, code);
    forall c | c in t.loop.retries ensures RetryOk(t, c, t.loop.retries[c]) && !HasJob(t, c) {
      assert RetryOk(s, c, s.loop.retries[c]) && !HasJob(s, c);
      assert forall j :: j in s.futures ==> s.futures[j].code != c;
    }
  }

  lemma ResubmitKeeps(s: State, code: Code)
    requires Inv(s)
    ensures Inv(ResubmitStep(s, code))
  {
    if Submits(s, code) {
      ResubmitJobs(s, code);
      ResubmitItems(s, code);
      ResubmitLoop(s, code);
    }
  }

  lemma LoopStepKeeps(s: State, step: Step)
    requires Inv(s)
    ensures Inv(LoopStep(s, step))
  {
    match step
    case Harvest(j) => HarvestKeeps(s, j);
    case Collect(j) => CollectKeeps(s, j);
    case Take => TakeKeeps(s);
    case Resubmit(code) => ResubmitKeeps(s, code);
    case _ => PlainTurnKeeps(s, step);
  }

  lemma PlainTurnKeeps(s: State, step: Step)
    requires Inv(s) && !step.Harvest? && !step.Collect? && !step.Take? && !step.Resubmit?
    ensures Inv(LoopStep(s, step))
  {
    TurnKeeps(s, LoopStep(s, step));
  }

  lemma UserStepKeeps(s: State, step: Step)
    requires Inv(s) && (step.UserCancel? || step.UserRetry? || step.LoseClaim? || step.Watch?)
    ensures Inv(Apply(s, step))
  {
    match step
    case UserCancel(code, execution) => CancelIsUserOnly(s, code, execution); UserOnlyKeeps(s, CancelStep(s, code, execution));
    case UserRetry(code, expected, found) =>
      RetryIsUserOnly(s, code, expected, found);
      UserOnlyKeeps(s, RetryStep(s, code, expected, found));
    case LoseClaim => TurnKeeps(s, s.(owned := false));
    case Watch(code) => TurnKeeps(s, WatchStep(s, code));
  }

  lemma StepKeeps(s: State, step: Step)
    requires Inv(s)
    ensures Inv(Apply(s, step))
  {
    if step.UserCancel? || step.UserRetry? || step.LoseClaim? || step.Watch? { UserStepKeeps(s, step); }
    else if !OfJob(step) { LoopStepKeeps(s, step); }
    else if step.job in s.futures { JobStepKeeps(s, step); }
  }

  lemma {:induction false} InvHolds(s: State, steps: seq<Step>)
    requires Inv(s)
    ensures Inv(Run(s, steps))
    decreases |steps|
  {
    if steps != [] {
      StepKeeps(s, steps[0]);
      InvHolds(Apply(s, steps[0]), steps[1..]);
    }
  }

  lemma InitOk(r: Record, items: seq<Code>, selected: set<Code>)
    requires StartOk(r, items, selected)
    ensures Inv(Init(r, items, selected))
  {
    var s := Init(r, items, selected);
    forall c | c in s.items ensures CodeOk(s, c) {
      var i :| 0 <= i < |items| && items[i] == c;
      assert s.futures[i].code == c;
      assert HasJob(s, c);
    }
  }
}
