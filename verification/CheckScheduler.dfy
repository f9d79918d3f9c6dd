/** One execution of `_run_check_items_concurrently` for a document task: the
    scheduling loop, its pool of jobs, the shared activity record, and the users
    who cancel and retry single checks meanwhile.  Every step is one locked
    section, one record transaction or one executor call; any order of them is a
    run. */
module CheckScheduler {
  import opened Options
  import opened Act = CheckActivity

  type JobId = nat

  /** What `completed_by_code` keeps of a result. */
  datatype Stored = Stored(execution: nat, canceled: bool, failed: bool)

  /** A CheckCancelEvent. */
  datatype Signal = Signal(execution: nat, raised: bool)

  /** `Starting`: between the recorded start and the first look at the signal. */
  datatype Stage = InPool | Entered | Starting | Working | MustFail | Saving(stored: Stored) | Ended | Crashed

  /** `execution` is meaningful once the job has entered. */
  datatype Job = Job(code: Code, execution: nat, stage: Stage)

  datatype Loop =
    | Polling
    | Harvesting(seen: map<Code, Check>)
    | AwaitingJobs
    | Taking
    | Submitting(retries: map<Code, nat>)
    | Done
    | Aborted

  datatype State = State(
    record: Record,
    owned: bool,                        // the row still runs under this claim's token
    selected: set<Code>,                // codes a user may cancel before they are recorded
    items: seq<Code>,                   // check_items
    signals: map<Code, Signal>,         // check_events
    futures: map<JobId, Job>,
    nextJob: JobId,
    completed: map<Code, Stored>,
    loop: Loop,
    // history of single-check retries, as (code, execution they lead to)
    accepted: multiset<(Code, nat)>,
    taken: multiset<(Code, nat)>,
    withdrawn: multiset<(Code, nat)>,
    submitted: multiset<(Code, nat)>)

  datatype Step =
    // users and the rest of the protocol
    | UserCancel(code: Code, execution: Option<nat>)
    | UserRetry(code: Code, expected: nat, found: Check)
    | LoseClaim
    | Watch(code: Code)
    // a job in the pool
    | Enter(job: JobId)
    | StartCheck(job: JobId)
    | EnsureActive(job: JobId)
    | Report(job: JobId, work: WorkPhase)
    | Succeed(job: JobId, failedRounds: bool)
    | Fail(job: JobId)
    | RecordFailure(job: JobId)
    | Save(job: JobId)
    | Crash(job: JobId)
    // the scheduling loop
    | Poll
    | Harvest(job: JobId)
    | EndHarvest
    | Collect(job: JobId)
    | EndWait
    | Take
    | Resubmit(code: Code)
    | EndSubmit
    | Abort

  function Busy(s: State): set<Code> { set j | j in s.futures :: s.futures[j].code }

  function OneOf(c: Code, n: nat): multiset<(Code, nat)> { multiset{(c, n)} }

  function PairsOf(ready: map<Code, nat>): multiset<(Code, nat)> { multiset(set c | c in ready :: (c, ready[c])) }

  /** The stored outcome a finished phase stands for. */
  predicate Agrees(t: Stored, p: CheckPhase) {
    if t.canceled then p.Canceled? else if t.failed then p.Failed? else p.Completed?
  }

  // ---- users ------------------------------------------------------------------------

  predicate Withdraws(s: State, code: Code, execution: Option<nat>) {
    && s.owned && code in s.record.checks && s.record.checks[code].retryRequested
    && (execution.Some? ==> execution.value == s.record.checks[code].execution)
  }

  function CancelStep(s: State, code: Code, execution: Option<nat>): State {
    if !s.owned then s
    else
      var r := RequestCancel(s.record, code, execution, s.selected).0;
      s.(record := r,
         withdrawn := if Withdraws(s, code, execution)
                      then s.withdrawn + OneOf(code, s.record.checks[code].execution + 1) else s.withdrawn)
  }

  /** `found` is the item read from the stored results when the record has none. */
  predicate RetryAccepted(s: State, code: Code, expected: nat, found: Check) {
    var item := if code in s.record.checks then s.record.checks[code] else found;
    && s.owned && s.record.phase != Some(Finalizing)
    && (code !in s.record.checks ==> !found.cancelRequested && !found.retryRequested && (found.phase.Failed? || found.phase.Canceled?))
    && item.execution == expected && !item.retryRequested && Retryable(item.phase)
  }

  function RetryStep(s: State, code: Code, expected: nat, found: Check): State {
    if !RetryAccepted(s, code, expected, found) then s
    else
      var item := if code in s.record.checks then s.record.checks[code] else found;
      s.(record := RequestRetry(s.record, code, item), accepted := s.accepted + OneOf(code, expected + 1))
  }

  function WatchStep(s: State, code: Code): State {
    if code in s.signals && code in s.record.checks && s.record.checks[code].cancelRequested
       && s.record.checks[code].execution == s.signals[code].execution
    then s.(signals := s.signals[code := s.signals[code].(raised := true)]) else s
  }

  // ---- jobs ---------------------------------------------------------------------------

  function SetJob(s: State, j: JobId, job: Job): State { s.(futures := s.futures[j := job]) }

  function JobStep(s: State, step: Step, j: JobId): State
    requires j in s.futures
  {
    var job := s.futures[j];
    var c := job.code;
    match (step, job.stage)
    case (Enter(_), InPool) =>
      SetJob(s, j, Job(c, if c in s.signals then s.signals[c].execution else 0, Entered))
    case (StartCheck(_), Entered) =>
      var (r, ok) := if s.owned then Start(s.record, c) else (s.record, false);
      SetJob(s, j, job.(stage := Starting)).(record := r,
        signals := if ok || c !in s.signals then s.signals else s.signals[c := s.signals[c].(raised := true)])
    case (EnsureActive(_), Starting) =>
      SetJob(s, j, job.(stage := if c in s.signals && s.signals[c].raised then MustFail else Working))
    case (EnsureActive(_), Working) =>
      if c in s.signals && s.signals[c].raised then SetJob(s, j, job.(stage := MustFail)) else s
    case (Report(_, work), Working) =>
      s.(record := if s.owned then UpdatePhase(s.record, {c}, work) else s.record)
    case (Succeed(_, failedRounds), Working) =>
      var (r, canceled) := if s.owned then Finish(s.record, c, failedRounds) else (s.record, false);
      SetJob(s, j, job.(stage := if canceled then MustFail else Saving(Stored(job.execution, false, failedRounds)))).(record := r)
    case (Fail(_), Working) => SetJob(s, j, job.(stage := MustFail))
    case (RecordFailure(_), MustFail) =>
      var (r, canceled) := if s.owned then Finish(s.record, c, true) else (s.record, false);
      SetJob(s, j, job.(stage := Saving(Stored(job.execution, canceled, true)))).(record := r)
    case (Save(_), Saving(t)) =>
      SetJob(s, j, job.(stage := Ended)).(completed := s.completed[c := t])
    case (Crash(_), stage) =>
      if stage.InPool? || stage.Ended? then s else SetJob(s, j, job.(stage := Crashed))
    case _ => s
  }

  // ---- the scheduling loop ----------------------------------------------------------------

  predicate CanHarvest(s: State, j: JobId) {
    && s.loop.Harvesting? && j in s.futures && s.futures[j].stage.InPool? && s.futures[j].code in s.signals
    && s.futures[j].code in s.loop.seen && s.loop.seen[s.futures[j].code].phase.Canceled?
  }

  function HarvestStep(s: State, j: JobId): State {
    if !CanHarvest(s, j) then s
    else
      var c := s.futures[j].code;
      s.(futures := s.futures - {j}, completed := s.completed[c := Stored(s.signals[c].execution, true, true)])
  }

  function CollectStep(s: State, j: JobId): State {
    if !s.loop.AwaitingJobs? || j !in s.futures then s
    else if s.futures[j].stage.Crashed? then s.(loop := Aborted)
    else if s.futures[j].stage.Ended? then s.(futures := s.futures - {j})
    else s
  }

  /** With busy codes and nothing ready the record is only read. */
  function TakeStep(s: State): State {
    if !s.loop.Taking? then s
    else
      var busy := Busy(s);
      var ready := if s.owned then ReadyRetries(s.record, busy) else map[];
      if busy != {} && ready == map[] then s.(loop := Submitting(map[]))
      else if !s.owned then s.(loop := Aborted)
      else
        s.(record := TakeRetries(s.record, busy).0,
           taken := s.taken + PairsOf(ready),
           loop := if s.futures == map[] && ready == map[] then Done else Submitting(ready))
  }

  function ResubmitStep(s: State, code: Code): State {
    if !s.loop.Submitting? || code !in s.loop.retries then s
    else
      var e := s.loop.retries[code];
      s.(completed := s.completed - {code},
         items := if code in s.items then s.items else s.items + [code],
         signals := s.signals[code := Signal(e, false)],
         futures := s.futures[s.nextJob := Job(code, 0, InPool)],
         nextJob := s.nextJob + 1,
         submitted := s.submitted + OneOf(code, e),
         loop := Submitting(s.loop.retries - {code}))
  }

  function LoopStep(s: State, step: Step): State {
    match step
    case Poll => if s.loop.Polling? then s.(loop := Harvesting(if s.owned then s.record.checks else map[])) else s
    case Harvest(j) => HarvestStep(s, j)
    case EndHarvest => if s.loop.Harvesting? then s.(loop := AwaitingJobs) else s
    case Collect(j) => CollectStep(s, j)
    case EndWait => if s.loop.AwaitingJobs? then s.(loop := Taking) else s
    case Take => TakeStep(s)
    case Resubmit(code) => ResubmitStep(s, code)
    case EndSubmit => if s.loop.Submitting? && s.loop.retries == map[] then s.(loop := Polling) else s
    case Abort => if s.loop.Done? then s else s.(loop := Aborted)
    case _ => s
  }

  predicate OfJob(step: Step) {
    step.Enter? || step.StartCheck? || step.EnsureActive? || step.Report? || step.Succeed? || step.Fail? ||
    step.RecordFailure? || step.Save? || step.Crash?
  }

  function Apply(s: State, step: Step): State {
    match step
    case UserCancel(code, execution) => CancelStep(s, code, execution)
    case UserRetry(code, expected, found) => RetryStep(s, code, expected, found)
    case LoseClaim => s.(owned := false)
    case Watch(code) => WatchStep(s, code)
    case _ =>
      if OfJob(step) then (if step.job in s.futures then JobStep(s, step, step.job) else s)
      else LoopStep(s, step)
  }

  function Run(s: State, steps: seq<Step>): State
    decreases |steps|
  {
    if steps == [] then s else Run(Apply(s, steps[0]), steps[1..])
  }

  // ---- the start ------------------------------------------------------------------------------

  function SubmitAll(items: seq<Code>, n: nat): map<JobId, Job>
    requires n <= |items|
  {
    map i: nat | i < n :: Job(items[i], 0, InPool)
  }

  function Pending(r: Record): multiset<(Code, nat)> {
    multiset(set c | c in r.checks && r.checks[c].retryRequested :: (c, r.checks[c].execution + 1))
  }

  /** What a submitted check may be: waiting, canceled by its user, or an
      earlier failure or cancellation whose retry a user asked for before the
      worker read its row. The start of such an execution is refused. */
  predicate Startable(k: Check) { k.phase.Pending? || k.phase.Canceled? || k.phase.Failed? }

  /** The loop begins with every item recorded and startable; other recorded
      codes are earlier results whose retry a user already asked for. LoopStart
      proves that every worker begins so. */
  ghost predicate StartOk(r: Record, items: seq<Code>, selected: set<Code>) {
    && (forall c <- selected :: c in r.checks)
    && (forall i, j :: 0 <= i < j < |items| ==> items[i] != items[j])
    && r.phase == Some(Inspecting)
    && (forall c :: c in r.checks ==> CheckOk(r.checks[c]) && (r.checks[c].retryRequested ==> Retryable(r.checks[c].phase)))
    && (forall c <- items :: c in r.checks && Startable(r.checks[c]))
  }

  function Init(r: Record, items: seq<Code>, selected: set<Code>): State
    requires forall c <- items :: c in r.checks
  {
    State(r, true, selected, items,
      map c | c in items :: Signal(r.checks[c].execution, false),
      SubmitAll(items, |items|), |items|, map[], Polling,
      Pending(r), multiset{}, multiset{},
      multiset(set c | c in items :: (c, r.checks[c].execution)))
  }
}
