/** The scheduling loop of `_run_check_items_concurrently`
    (app/tasks/runner.py) as it runs, with jobs and users acting between its
    steps.  It only ever does what CheckScheduler allows, so what is proved of
    every run there holds of it. */
module CheckRun {
  import opened Options
  import opened Act = CheckActivity
  import opened CheckScheduler
  import SchedulerSafety
  import RetryHistory

  lemma {:induction false} RunSnoc(s: State, steps: seq<Step>, step: Step)
    ensures Run(s, steps + [step]) == Apply(Run(s, steps), step)
    decreases |steps|
  {
    if steps == [] {
      assert [step][1..] == [] && [] + [step] == [step];
    } else {
      assert (steps + [step])[0] == steps[0] && (steps + [step])[1..] == steps[1..] + [step];
      RunSnoc(Apply(s, steps[0]), steps[1..], step);
    }
  }

  /** Steps of users, of the watcher and of the jobs. */
  predicate IsElsewhere(step: Step) {
    step.UserCancel? || step.UserRetry? || step.LoseClaim? || step.Watch? || OfJob(step)
  }

  predicate Elsewhere(env: seq<Step>) { forall step <- env :: IsElsewhere(step) }

  /** Nothing a job waits for in the queue begins elsewhere. */
  ghost predicate Alongside(s: State, t: State) {
    && t.loop == s.loop && t.futures.Keys == s.futures.Keys && t.signals.Keys == s.signals.Keys
    && forall j :: j in t.futures && t.futures[j].stage.InPool? ==> t.futures[j] == s.futures[j]
  }

  lemma UserAlongside(s: State, step: Step)
    requires step.UserCancel? || step.UserRetry? || step.LoseClaim? || step.Watch?
    ensures Alongside(s, Apply(s, step))
  {
  }

  lemma SetAlongside(s: State, j: JobId, job: Job, r: Record, signals: map<Code, Signal>, completed: map<Code, Stored>)
    requires j in s.futures && !job.stage.InPool? && signals.Keys == s.signals.Keys
    ensures Alongside(s, SetJob(s, j, job).(record := r, signals := signals, completed := completed))
  {
  }

  lemma JobAlongside(s: State, step: Step, j: JobId)
    requires OfJob(step) && j in s.futures
    ensures Alongside(s, JobStep(s, step, j))
  {
    if step.Enter? || step.StartCheck? { FirstAlongside(s, step, j); }
    else if step.EnsureActive? || step.Report? { EarlyAlongside(s, step, j); }
    else if step.Succeed? || step.RecordFailure? { LateAlongside(s, step, j); }
    else { LastAlongside(s, step, j); }
  }

  lemma FirstAlongside(s: State, step: Step, j: JobId)
    requires (step.Enter? || step.StartCheck?) && j in s.futures
    ensures Alongside(s, JobStep(s, step, j))
  {
    var t := JobStep(s, step, j);
    if t.futures != s.futures { SetAlongside(s, j, t.futures[j], t.record, t.signals, t.completed); }
  }

  lemma EarlyAlongside(s: State, step: Step, j: JobId)
    requires (step.EnsureActive? || step.Report?) && j in s.futures
    ensures Alongside(s, JobStep(s, step, j))
  {
    var t := JobStep(s, step, j);
    if t.futures != s.futures { SetAlongside(s, j, t.futures[j], t.record, t.signals, t.completed); }
  }

  lemma LateAlongside(s: State, step: Step, j: JobId)
    requires (step.Succeed? || step.RecordFailure?) && j in s.futures
    ensures Alongside(s, JobStep(s, step, j))
  {
    var t := JobStep(s, step, j);
    if t.futures != s.futures { SetAlongside(s, j, t.futures[j], t.record, t.signals, t.completed); }
  }

  lemma LastAlongside(s: State, step: Step, j: JobId)
    requires (step.Fail? || step.Save? || step.Crash?) && j in s.futures
    ensures Alongside(s, JobStep(s, step, j))
  {
    var t := JobStep(s, step, j);
    if t.futures != s.futures { SetAlongside(s, j, t.futures[j], t.record, t.signals, t.completed); }
  }

  lemma ElsewhereKeeps(s: State, step: Step)
    requires IsElsewhere(step)
    ensures Alongside(s, Apply(s, step))
  {
    if !OfJob(step) { UserAlongside(s, step); }
    else if step.job in s.futures { JobAlongside(s, step, step.job); }
    else { RetryHistory.IdleJob(s, step); }
  }

  lemma AlongsideHarvest(s: State, t: State)
    requires Alongside(s, t)
    ensures forall j :: CanHarvest(t, j) ==> CanHarvest(s, j)
  {
  }

  class CheckLoop {
    var s: State
    ghost const begin: State
    ghost var trace: seq<Step>

    ghost predicate Valid()
      reads this
    {
      s == Run(begin, trace)
    }

    constructor (r: Record, items: seq<Code>, selected: set<Code>)
      requires forall c <- items :: c in r.checks
      ensures Valid() && begin == Init(r, items, selected) && trace == [] && s.loop.Polling?
    {
      s, begin, trace := Init(r, items, selected), Init(r, items, selected), [];
    }

    method Do(step: Step)
      requires Valid()
      modifies this
      ensures Valid() && s == Apply(old(s), step)
    {
      RunSnoc(begin, trace, step);
      s := Apply(s, step);
      trace := trace + [step];
    }

    method Others(env: seq<Step>)
      requires Valid() && Elsewhere(env)
      modifies this
      ensures Valid() && s.loop == old(s.loop) && s.futures.Keys == old(s.futures.Keys)
      ensures forall j :: CanHarvest(s, j) ==> CanHarvest(old(s), j)
    {
      var i := 0;
      while i < |env|
        invariant 0 <= i <= |env| && Valid() && s.loop == old(s.loop) && s.futures.Keys == old(s.futures.Keys)
        invariant forall j :: CanHarvest(s, j) ==> CanHarvest(old(s), j)
      {
        assert env[i] in env;
        ElsewhereKeeps(s, env[i]);
        AlongsideHarvest(s, Apply(s, env[i]));
        Do(env[i]);
        i := i + 1;
      }
    }

    method HarvestOne(j: JobId)
      requires Valid() && s.loop.Harvesting?
      modifies this
      ensures Valid() && s.loop == old(s.loop) && s.futures.Keys <= old(s.futures.Keys)
      ensures !CanHarvest(s, j) && forall k :: CanHarvest(s, k) ==> CanHarvest(old(s), k)
    {
      Do(Harvest(j));
    }

    /** Ends the queued executions that the record shows canceled. None of those
        visited is left waiting. */
    method HarvestCanceled(order: seq<JobId>, env: nat -> seq<Step>)
      requires Valid() && s.loop.Harvesting? && forall n :: Elsewhere(env(n))
      modifies this
      ensures Valid() && s.loop == old(s.loop) && s.futures.Keys <= old(s.futures.Keys)
      ensures forall k :: 0 <= k < |order| ==> !CanHarvest(s, order[k])
    {
      var i := 0;
      while i < |order|
        invariant 0 <= i <= |order| && Valid() && s.loop == old(s.loop) && s.futures.Keys <= old(s.futures.Keys)
        invariant forall k :: 0 <= k < i ==> !CanHarvest(s, order[k])
      {
        Others(env(i));
        HarvestOne(order[i]);
        i := i + 1;
      }
    }

    /** Takes the finished jobs; one that crashed ends the loop. */
    method CollectDone(done: seq<JobId>, env: nat -> seq<Step>)
      requires Valid() && s.loop.AwaitingJobs? && forall n :: Elsewhere(env(n))
      modifies this
      ensures Valid() && (s.loop.AwaitingJobs? || s.loop.Aborted?)
    {
      var i := 0;
      while i < |done| && !s.loop.Aborted?
        invariant 0 <= i <= |done| && Valid() && (s.loop.AwaitingJobs? || s.loop.Aborted?)
      {
        Others(env(i));
        Do(Collect(done[i]));
        i := i + 1;
      }
    }

    method ResubmitOne(code: Code)
      requires Valid() && s.loop.Submitting? && code in s.loop.retries
      modifies this
      ensures Valid() && s.loop == Submitting(old(s.loop.retries) - {code})
      ensures old(s.nextJob) in s.futures && s.futures[old(s.nextJob)] == Job(code, 0, InPool)
    {
      Do(Resubmit(code));
    }

    /** Submits every taken retry again. */
    method SubmitRetries(env: nat -> seq<Step>)
      requires Valid() && s.loop.Submitting? && forall n :: Elsewhere(env(n))
      modifies this
      ensures Valid() && s.loop == Submitting(map[])
    {
      var i := 0;
      while s.loop.retries != map[]
        invariant Valid() && s.loop.Submitting?
        decreases |s.loop.retries|
      {
        ghost var before := s.loop.retries;
        var code :| code in s.loop.retries;
        ResubmitOne(code);
        assert s.loop.retries.Keys == before.Keys - {code};
        Others(env(i));
        i := i + 1;
      }
    }

    method LookAtRecord()
      requires Valid() && s.loop.Polling?
      modifies this
      ensures Valid() && s.loop.Harvesting?
    {
      Do(Poll);
    }

    method AwaitJobs()
      requires Valid() && s.loop.Harvesting?
      modifies this
      ensures Valid() && s.loop.AwaitingJobs?
    {
      Do(EndHarvest);
    }

    /** A canceled task or a lost claim ends the loop here. */
    method StopWaiting(canceled: bool)
      requires Valid() && s.loop.AwaitingJobs?
      modifies this
      ensures Valid() && if canceled then s.loop.Aborted? else s.loop.Taking?
    {
      Do(if canceled then Abort else EndWait);
    }

    method TakeReady()
      requires Valid() && s.loop.Taking?
      modifies this
      ensures Valid() && (s.loop.Submitting? || s.loop.Done? || s.loop.Aborted?)
    {
      Do(Take);
    }

    method EndTurn()
      requires Valid() && s.loop == Submitting(map[])
      modifies this
      ensures Valid() && s.loop.Polling?
    {
      Do(EndSubmit);
    }

    /** One turn: look at the record, end what was canceled in the queue, take
        what is done, take what may be retried. */
    method Turn(order: seq<JobId>, done: seq<JobId>, canceled: bool, env: nat -> nat -> seq<Step>)
      requires Valid() && s.loop.Polling? && forall i, n :: Elsewhere(env(i)(n))
      modifies this
      ensures Valid() && (s.loop.Polling? || s.loop.Done? || s.loop.Aborted?)
    {
      LookAtRecord();
      HarvestCanceled(order, env(0));
      AwaitJobs();
      CollectDone(done, env(1));
      if s.loop.Aborted? { return; }
      StopWaiting(canceled);
      if canceled { return; }
      Others(env(2)(0));
      TakeReady();
      if !s.loop.Submitting? { return; }
      SubmitRetries(env(3));
      EndTurn();
    }
  }

  /** What happens around one turn: the orders the loop sees, a task
      cancellation, and what others do meanwhile. */
  datatype Around = Around(order: seq<JobId>, done: seq<JobId>, canceled: bool, env: nat -> nat -> seq<Step>)

  predicate Orderly(a: Around, i: nat, n: nat) { Elsewhere(a.env(i)(n)) }

  /** The whole loop, for any number of turns. When it exits normally, the
      stored results are those of exactly the items, each from its latest
      execution; until then every accepted retry is accounted for. */
  method RunChecks(r: Record, items: seq<Code>, selected: set<Code>, turns: seq<Around>) returns (loop: CheckLoop)
    requires StartOk(r, items, selected) && forall a <- turns :: forall i, n :: Orderly(a, i, n)
    ensures loop.Valid() && loop.begin == Init(r, items, selected)
    ensures loop.s.loop.Done? ==> loop.s.futures == map[] && forall c :: c in loop.s.completed <==> c in loop.s.items
    ensures loop.s.accepted == loop.s.taken + loop.s.withdrawn + multiset(RetryHistory.PendingSet(loop.s.record))
  {
    loop := new CheckLoop(r, items, selected);
    var k := 0;
    while k < |turns| && loop.s.loop.Polling?
      invariant 0 <= k <= |turns| && loop.Valid() && loop.begin == Init(r, items, selected) && fresh(loop)
      invariant loop.s.loop.Polling? || loop.s.loop.Done? || loop.s.loop.Aborted?
    {
      var a := turns[k];
      assert a in turns;
      assert forall i, n :: Elsewhere(a.env(i)(n)) by {
        forall i, n ensures Elsewhere(a.env(i)(n)) { assert Orderly(a, i, n); }
      }
      loop.Turn(a.order, a.done, a.canceled, a.env);
      k := k + 1;
    }
    RetryHistory.ExitIsComplete(r, items, selected, loop.trace);
    RetryHistory.RetriesAreConserved(r, items, selected, loop.trace);
  }
}
