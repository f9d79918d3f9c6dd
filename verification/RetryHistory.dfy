/** The retry handshake over whole runs of the scheduling loop: every accepted
    retry is started once, withdrawn, or still waiting, and none waits once the
    record is finalizing. */
module RetryHistory {
  import opened Options
  import opened Act = CheckActivity
  import opened CheckScheduler
  import opened SchedulerSafety

  type Pair = (Code, nat)

  function PendingSet(r: Record): (ps: set<Pair>)
    ensures forall p :: p in ps <==> p.0 in r.checks && r.checks[p.0].retryRequested && p.1 == r.checks[p.0].execution + 1
  {
    set c | c in r.checks && r.checks[c].retryRequested :: (c, r.checks[c].execution + 1)
  }

  function ReadySet(ready: map<Code, nat>): (ps: set<Pair>)
    ensures forall p :: p in ps <==> p.0 in ready && p.1 == ready[p.0]
  {
    set c | c in ready :: (c, ready[c])
  }

  // ---- executions only move forward -------------------------------------------------------

  ghost predicate AllForward(a: Record, b: Record) {
    forall c :: c in a.checks ==> c in b.checks && Forward(a.checks[c], b.checks[c])
  }

  lemma UserForward(s: State, t: State)
    requires Inv(s) && UserOnly(s, t)
    ensures AllForward(s.record, t.record)
  {
    forall c | c in s.record.checks ensures c in t.record.checks && Forward(s.record.checks[c], t.record.checks[c]) {
      assert UserMoves(s.record.checks[c], t.record.checks[c]) && ItemOk(s.record.checks[c]);
    }
  }

  lemma TakeForward(s: State)
    requires Inv(s)
    ensures AllForward(s.record, TakeStep(s).record)
  {
    forall c | c in s.record.checks
      ensures c in TakeStep(s).record.checks && Forward(s.record.checks[c], TakeStep(s).record.checks[c])
    {
      TakeMoves(s.record, Busy(s), c);
    }
  }

  /** A job step moves one item and leaves every request and execution alone. */
  lemma JobForward(s: State, step: Step)
    requires Inv(s) && OfJob(step) && step.job in s.futures
    ensures AllForward(s.record, Apply(s, step).record)
    ensures PendingSet(Apply(s, step).record) == PendingSet(s.record)
  {
    JobStepKeeps(s, step);
    MovesForward(s, Apply(s, step), step.job);
  }

  lemma MovesForward(s: State, t: State, j: JobId)
    requires j in s.futures && JobMoves(s, t, j)
    ensures AllForward(s.record, t.record) && PendingSet(t.record) == PendingSet(s.record)
  {
    var c := s.futures[j].code;
    forall x | x in s.record.checks
      ensures x in t.record.checks && Forward(s.record.checks[x], t.record.checks[x])
      ensures t.record.checks[x].retryRequested == s.record.checks[x].retryRequested
      ensures t.record.checks[x].execution == s.record.checks[x].execution
    {
      if x == c { assert JobRecordMoves(s, t, c); }
    }
    assert t.record.checks.Keys == s.record.checks.Keys;
  }

  predicate IsUser(step: Step) { step.UserCancel? || step.UserRetry? }

  lemma UserStepForward(s: State, step: Step)
    requires Inv(s) && IsUser(step)
    ensures AllForward(s.record, Apply(s, step).record)
  {
    if step.UserCancel? {
      CancelIsUserOnly(s, step.code, step.execution);
      UserForward(s, CancelStep(s, step.code, step.execution));
    } else {
      RetryIsUserOnly(s, step.code, step.expected, step.found);
      UserForward(s, RetryStep(s, step.code, step.expected, step.found));
    }
  }

  predicate IsTurn(step: Step) { !IsUser(step) && !OfJob(step) && !step.Take? && !step.Resubmit? }

  lemma TurnRecord(s: State, step: Step)
    requires IsTurn(step) || step.Resubmit?
    ensures Apply(s, step).record == s.record
  {
  }

  lemma StepForward(s: State, step: Step)
    requires Inv(s)
    ensures AllForward(s.record, Apply(s, step).record)
  {
    if IsUser(step) { UserStepForward(s, step); }
    else if step.Take? { TakeForward(s); }
    else if OfJob(step) { if step.job in s.futures { JobForward(s, step); } }
    else { TurnRecord(s, step); }
  }

  /** Over any run a recorded check never goes back to an earlier execution,
      and within one execution its cancel request stays and so does a finished
      phase; only an earlier cancellation whose start is refused becomes failed. */
  lemma {:induction false} ChecksNeverGoBack(s: State, steps: seq<Step>)
    requires Inv(s)
    ensures AllForward(s.record, Run(s, steps).record)
    decreases |steps|
  {
    if steps != [] {
      var t := Apply(s, steps[0]);
      StepKeeps(s, steps[0]);
      StepForward(s, steps[0]);
      ChecksNeverGoBack(t, steps[1..]);
      forall c | c in s.record.checks
        ensures c in Run(s, steps).record.checks && Forward(s.record.checks[c], Run(s, steps).record.checks[c])
      {
        assert c in t.record.checks && Forward(s.record.checks[c], t.record.checks[c]);
        assert Forward(t.record.checks[c], Run(t, steps[1..]).record.checks[c]);
      }
    }
  }

  // ---- conservation of retries -------------------------------------------------------------

  function Waiting(s: State): multiset<Pair> { if s.loop.Submitting? then PairsOf(s.loop.retries) else multiset{} }

  ghost predicate Once(m: multiset<Pair>, r: Record) {
    forall p :: p in m ==> m[p] == 1 && p.0 in r.checks && p.1 <= r.checks[p.0].execution
  }

  ghost predicate History(s: State, base: multiset<Pair>) {
    && s.accepted == s.taken + s.withdrawn + multiset(PendingSet(s.record))
    && Once(base + s.taken, s.record)
    && s.submitted <= base + s.taken
    && (!s.loop.Aborted? ==> s.submitted + Waiting(s) == base + s.taken)
  }

  lemma AddPair(a: set<Pair>, p: Pair)
    requires p !in a
    ensures multiset(a + {p}) == multiset(a) + multiset{p}
  {
  }

  lemma SplitPairs(a: set<Pair>, b: set<Pair>)
    requires a !! b
    ensures multiset(a + b) == multiset(a) + multiset(b)
  {
  }

  lemma OnceForward(m: multiset<Pair>, a: Record, b: Record)
    requires Once(m, a) && AllForward(a, b)
    ensures Once(m, b)
  {
    forall p | p in m ensures m[p] == 1 && p.0 in b.checks && p.1 <= b.checks[p.0].execution {
      assert p.0 in a.checks && Forward(a.checks[p.0], b.checks[p.0]);
    }
  }

  /** The counts follow from what one step did to the pending set. */
  lemma HistoryMoves(s: State, t: State, base: multiset<Pair>, gained: multiset<Pair>, lost: multiset<Pair>)
    requires History(s, base) && AllForward(s.record, t.record)
    requires t.taken == s.taken && t.submitted == s.submitted
    requires t.accepted == s.accepted + gained && t.withdrawn == s.withdrawn + lost
    requires multiset(PendingSet(t.record)) + lost == multiset(PendingSet(s.record)) + gained
    requires t.loop.Aborted? || (!s.loop.Aborted? && Waiting(t) == Waiting(s))
    ensures History(t, base)
  {
    OnceForward(base + s.taken, s.record, t.record);
    Balance(s.taken, s.withdrawn, multiset(PendingSet(s.record)), multiset(PendingSet(t.record)), gained, lost);
  }

  lemma Balance(taken: multiset<Pair>, withdrawn: multiset<Pair>, a: multiset<Pair>, b: multiset<Pair>, gained: multiset<Pair>, lost: multiset<Pair>)
    requires b + lost == a + gained
    ensures taken + withdrawn + a + gained == taken + (withdrawn + lost) + b
  {
    forall p ensures (taken + withdrawn + a + gained)[p] == (taken + (withdrawn + lost) + b)[p] {
      assert (b + lost)[p] == (a + gained)[p];
    }
  }

  lemma CancelPending(s: State, code: Code, execution: Option<nat>)
    requires s.owned
    ensures var r := RequestCancel(s.record, code, execution, s.selected).0;
      if Withdraws(s, code, execution) then
        var p := (code, s.record.checks[code].execution + 1);
        PendingSet(s.record) == PendingSet(r) + {p} && p !in PendingSet(r)
      else PendingSet(r) == PendingSet(s.record)
  {
  }

  lemma CancelFields(s: State, code: Code, execution: Option<nat>)
    requires s.owned
    ensures var t := CancelStep(s, code, execution);
      && t == s.(record := RequestCancel(s.record, code, execution, s.selected).0, withdrawn := t.withdrawn)
      && t.withdrawn == s.withdrawn + (if Withdraws(s, code, execution) then multiset{(code, s.record.checks[code].execution + 1)} else multiset{})
  {
  }

  lemma CancelHistory(s: State, base: multiset<Pair>, code: Code, execution: Option<nat>)
    requires Inv(s) && History(s, base)
    ensures History(CancelStep(s, code, execution), base)
  {
    if s.owned {
      UserStepForward(s, UserCancel(code, execution));
      CancelFields(s, code, execution);
      CancelPending(s, code, execution);
      if Withdraws(s, code, execution) {
        LosesPair(s, CancelStep(s, code, execution), base, (code, s.record.checks[code].execution + 1));
      } else {
        HistoryMoves(s, CancelStep(s, code, execution), base, multiset{}, multiset{});
      }
    }
  }

  lemma LosesPair(s: State, t: State, base: multiset<Pair>, p: Pair)
    requires History(s, base) && AllForward(s.record, t.record)
    requires PendingSet(s.record) == PendingSet(t.record) + {p} && p !in PendingSet(t.record)
    requires t == s.(record := t.record, withdrawn := s.withdrawn + multiset{p})
    ensures History(t, base)
  {
    AddPair(PendingSet(t.record), p);
    HistoryMoves(s, t, base, multiset{}, multiset{p});
  }

  lemma GainsPair(s: State, t: State, base: multiset<Pair>, p: Pair)
    requires History(s, base) && AllForward(s.record, t.record)
    requires PendingSet(t.record) == PendingSet(s.record) + {p} && p !in PendingSet(s.record)
    requires t == s.(record := t.record, accepted := s.accepted + multiset{p})
    ensures History(t, base)
  {
    AddPair(PendingSet(s.record), p);
    HistoryMoves(s, t, base, multiset{p}, multiset{});
  }

  lemma RetryPending(s: State, code: Code, expected: nat, found: Check)
    requires RetryAccepted(s, code, expected, found)
    ensures var t := RetryStep(s, code, expected, found);
      && (code, expected + 1) !in PendingSet(s.record)
      && PendingSet(t.record) == PendingSet(s.record) + {(code, expected + 1)}
      && t == s.(record := t.record, accepted := s.accepted + multiset{(code, expected + 1)})
  {
  }

  lemma RetryHistoryStep(s: State, base: multiset<Pair>, code: Code, expected: nat, found: Check)
    requires Inv(s) && History(s, base)
    ensures History(RetryStep(s, code, expected, found), base)
  {
    UserStepForward(s, UserRetry(code, expected, found));
    if RetryAccepted(s, code, expected, found) {
      RetryPending(s, code, expected, found);
      GainsPair(s, RetryStep(s, code, expected, found), base, (code, expected + 1));
    }
  }

  lemma TakePending(r: Record, busy: set<Code>)
    requires RecordInv(r)
    ensures var (t, ready) := TakeRetries(r, busy);
      PendingSet(r) == PendingSet(t) + ReadySet(ready) && PendingSet(t) !! ReadySet(ready)
  {
    var (t, ready) := TakeRetries(r, busy);
    forall c | c in r.checks ensures c in t.checks { TakeMoves(r, busy, c); }
  }

  /** The taken pairs are new: their executions exceed every recorded one. */
  lemma TakeOnce(s: State, base: multiset<Pair>)
    requires Inv(s) && Once(base + s.taken, s.record)
    ensures var (t, ready) := TakeRetries(s.record, Busy(s)); Once(base + s.taken + multiset(ReadySet(ready)), t)
  {
    var (t, ready) := TakeRetries(s.record, Busy(s));
    var prior, add := base + s.taken, multiset(ReadySet(ready));
    forall p | p in prior + add ensures (prior + add)[p] == 1 && p.0 in t.checks && p.1 <= t.checks[p.0].execution {
      if p in prior {
        assert p.0 in s.record.checks && p.1 <= s.record.checks[p.0].execution;
        TakeMoves(s.record, Busy(s), p.0);
        assert p !in ReadySet(ready);
      } else {
        assert p in ReadySet(ready);
        TakeMoves(s.record, Busy(s), p.0);
      }
    }
  }

  lemma NothingReady()
    ensures PairsOf(map[]) == multiset{}
  {
    assert ReadySet(map[]) == {};
  }

  lemma TakeHistory(s: State, base: multiset<Pair>)
    requires Inv(s) && History(s, base)
    ensures History(TakeStep(s), base)
  {
    NothingReady();
    if TakesNow(s) {
      var (r, ready) := TakeRetries(s.record, Busy(s));
      TakePending(s.record, Busy(s));
      SplitPairs(PendingSet(r), ReadySet(ready));
      TakeOnce(s, base);
      TakeCounts(s, TakeStep(s), base, multiset(ReadySet(ready)));
    }
  }

  lemma TakeCounts(s: State, t: State, base: multiset<Pair>, add: multiset<Pair>)
    requires History(s, base) && t.taken == s.taken + add && t.accepted == s.accepted && t.withdrawn == s.withdrawn && t.submitted == s.submitted
    requires multiset(PendingSet(s.record)) == multiset(PendingSet(t.record)) + add && Once(base + s.taken + add, t.record)
    requires !s.loop.Aborted? && Waiting(s) == multiset{} && Waiting(t) == add
    ensures History(t, base)
  {
    Associate(base, s.taken, add);
    Regroup(s.taken, s.withdrawn, multiset(PendingSet(t.record)), add);
  }

  lemma Associate(a: multiset<Pair>, b: multiset<Pair>, c: multiset<Pair>)
    ensures a + (b + c) == a + b + c
  {
  }

  lemma Regroup(taken: multiset<Pair>, withdrawn: multiset<Pair>, pending: multiset<Pair>, add: multiset<Pair>)
    ensures taken + withdrawn + (pending + add) == taken + add + withdrawn + pending
  {
  }

  lemma ResubmitHistory(s: State, base: multiset<Pair>, code: Code)
    requires History(s, base)
    ensures History(ResubmitStep(s, code), base)
  {
    if Submits(s, code) {
      var rest := s.loop.retries - {code};
      var p := (code, s.loop.retries[code]);
      assert ReadySet(s.loop.retries) == ReadySet(rest) + {p};
      AddPair(ReadySet(rest), p);
      ResubmitCounts(s, ResubmitStep(s, code), base, p);
    }
  }

  lemma ResubmitCounts(s: State, t: State, base: multiset<Pair>, p: Pair)
    requires History(s, base) && t.taken == s.taken && t.accepted == s.accepted && t.withdrawn == s.withdrawn && t.record == s.record
    requires t.submitted == s.submitted + multiset{p} && Waiting(s) == Waiting(t) + multiset{p} && !s.loop.Aborted?
    ensures History(t, base)
  {
    assert t.submitted + Waiting(t) == s.submitted + Waiting(s);
  }

  lemma TurnWaiting(s: State, step: Step)
    requires IsTurn(step)
    ensures var t := Apply(s, step);
      && t.taken == s.taken && t.submitted == s.submitted && t.accepted == s.accepted && t.withdrawn == s.withdrawn
      && (t.loop.Aborted? || (!s.loop.Aborted? && Waiting(t) == Waiting(s)))
  {
    NothingReady();
    if !step.LoseClaim? && !step.Watch? { LoopWaiting(s, step); }
  }

  lemma LoopWaiting(s: State, step: Step)
    requires IsTurn(step) && !step.LoseClaim? && !step.Watch? && PairsOf(map[]) == multiset{}
    ensures var t := LoopStep(s, step);
      && t.taken == s.taken && t.submitted == s.submitted && t.accepted == s.accepted && t.withdrawn == s.withdrawn
      && (t.loop.Aborted? || (!s.loop.Aborted? && Waiting(t) == Waiting(s)))
  {
  }

  predicate SameHistory(s: State, t: State) {
    t.taken == s.taken && t.submitted == s.submitted && t.accepted == s.accepted && t.withdrawn == s.withdrawn && t.loop == s.loop
  }

  lemma JobStepWaiting(s: State, step: Step, j: JobId)
    requires j in s.futures
    ensures SameHistory(s, JobStep(s, step, j))
  {
  }

  lemma JobWaiting(s: State, step: Step)
    requires OfJob(step) && step.job in s.futures
    ensures SameHistory(s, Apply(s, step))
  {
    JobStepWaiting(s, step, step.job);
  }

  lemma JobHistory(s: State, base: multiset<Pair>, step: Step)
    requires Inv(s) && History(s, base) && OfJob(step) && step.job in s.futures
    ensures History(Apply(s, step), base)
  {
    JobForward(s, step);
    JobWaiting(s, step);
    HistoryMoves(s, Apply(s, step), base, multiset{}, multiset{});
  }

  lemma TurnHistory(s: State, base: multiset<Pair>, step: Step)
    requires History(s, base) && IsTurn(step)
    ensures History(Apply(s, step), base)
  {
    TurnRecord(s, step);
    TurnWaiting(s, step);
    HistoryMoves(s, Apply(s, step), base, multiset{}, multiset{});
  }

  lemma UserHistory(s: State, base: multiset<Pair>, step: Step)
    requires Inv(s) && History(s, base) && IsUser(step)
    ensures History(Apply(s, step), base)
  {
    if step.UserCancel? { CancelHistory(s, base, step.code, step.execution); }
    else { RetryHistoryStep(s, base, step.code, step.expected, step.found); }
  }

  lemma TakeIsStep(s: State)
    ensures Apply(s, Take) == TakeStep(s)
  {
  }

  lemma ResubmitIsStep(s: State, code: Code)
    ensures Apply(s, Resubmit(code)) == ResubmitStep(s, code)
  {
  }

  lemma HistoryStep(s: State, base: multiset<Pair>, step: Step)
    requires Inv(s) && History(s, base)
    ensures History(Apply(s, step), base)
  {
    if IsUser(step) { UserHistory(s, base, step); }
    else if OfJob(step) && step.job in s.futures { JobHistory(s, base, step); }
    else if OfJob(step) { IdleJob(s, step); }
    else if step.Take? { TakeIsStep(s); TakeHistory(s, base); }
    else if step.Resubmit? { ResubmitIsStep(s, step.code); ResubmitHistory(s, base, step.code); }
    else { TurnHistory(s, base, step); }
  }

  lemma IdleJob(s: State, step: Step)
    requires OfJob(step) && step.job !in s.futures
    ensures Apply(s, step) == s
  {
  }

  lemma {:induction false} HistoryHolds(s: State, base: multiset<Pair>, steps: seq<Step>)
    requires Inv(s) && History(s, base)
    ensures History(Run(s, steps), base)
    decreases |steps|
  {
    if steps != [] {
      StepKeeps(s, steps[0]);
      HistoryStep(s, base, steps[0]);
      HistoryHolds(Apply(s, steps[0]), base, steps[1..]);
    }
  }

  function FirstPairs(r: Record, items: seq<Code>): multiset<Pair>
    requires forall c <- items :: c in r.checks
  {
    multiset(set c | c in items :: (c, r.checks[c].execution))
  }

  lemma InitHistory(r: Record, items: seq<Code>, selected: set<Code>)
    requires StartOk(r, items, selected)
    ensures History(Init(r, items, selected), FirstPairs(r, items))
  {
  }

  // ---- the main results ------------------------------------------------------------------------

  /** Two executions of one check never overlap: no two futures of the loop
      ever run the same code. */
  lemma ExecutionsNeverOverlap(r: Record, items: seq<Code>, selected: set<Code>, steps: seq<Step>, j: JobId, k: JobId)
    requires StartOk(r, items, selected)
    ensures var s := Run(Init(r, items, selected), steps);
      j in s.futures && k in s.futures && s.futures[j].code == s.futures[k].code ==> j == k
  {
    InitOk(r, items, selected);
    InvHolds(Init(r, items, selected), steps);
  }

  /** When the loop exits, every item, including those appended by a retry, has
      exactly its latest execution's outcome stored, and nothing else is. */
  lemma ExitIsComplete(r: Record, items: seq<Code>, selected: set<Code>, steps: seq<Step>)
    requires StartOk(r, items, selected)
    ensures var s := Run(Init(r, items, selected), steps);
      s.loop.Done? ==>
        && s.futures == map[]
        && (forall c :: c in s.completed <==> c in s.items)
        && (forall c <- s.items :: Finished(s, c))
  {
    InitOk(r, items, selected);
    InvHolds(Init(r, items, selected), steps);
    var s := Run(Init(r, items, selected), steps);
    if s.loop.Done? { forall c | c in s.items ensures Finished(s, c) {} }
  }

  /** Every retry accepted so far was taken, withdrawn, or still waits in the
      record; a taken retry leads to one new execution, submitted at most once;
      and once the record is finalizing none waits. */
  lemma RetriesAreConserved(r: Record, items: seq<Code>, selected: set<Code>, steps: seq<Step>)
    requires StartOk(r, items, selected)
    ensures var s := Run(Init(r, items, selected), steps);
      && s.accepted == s.taken + s.withdrawn + multiset(PendingSet(s.record))
      && s.submitted <= FirstPairs(r, items) + s.taken
      && (forall p :: (FirstPairs(r, items) + s.taken)[p] <= 1)
      && (s.record.phase == Some(Finalizing) ==> s.accepted == s.taken + s.withdrawn)
      && (s.loop.Done? ==> s.submitted == FirstPairs(r, items) + s.taken)
  {
    InitOk(r, items, selected);
    InitHistory(r, items, selected);
    InvHolds(Init(r, items, selected), steps);
    HistoryHolds(Init(r, items, selected), FirstPairs(r, items), steps);
    Conserved(Run(Init(r, items, selected), steps), FirstPairs(r, items));
  }

  lemma OnceAt(m: multiset<Pair>, r: Record, p: Pair)
    requires Once(m, r)
    ensures m[p] <= 1
  {
    if p in m { assert p.0 in r.checks; }
  }

  lemma Conserved(s: State, base: multiset<Pair>)
    requires Inv(s) && History(s, base)
    ensures forall p :: (base + s.taken)[p] <= 1
    ensures s.record.phase == Some(Finalizing) ==> s.accepted == s.taken + s.withdrawn
    ensures s.loop.Done? ==> s.submitted == base + s.taken
  {
    forall p ensures (base + s.taken)[p] <= 1 {
      OnceAt(base + s.taken, s.record, p);
    }
    if s.record.phase == Some(Finalizing) { assert PendingSet(s.record) == {}; }
  }
}
