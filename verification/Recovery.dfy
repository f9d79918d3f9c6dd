/** What becomes of a task whose worker is gone: which way it is recovered, with
    users acting between the read and the write of `_recover_owned_task`. */
module Recovery {
  import opened Options
  import opened TaskRows
  import opened Lifecycle
  import opened ProcessSafety
  import Safety = TaskSafety

  function Latest(r: Row): Option<seq<CheckResult>> { if r.live.Some? then r.live else r.result }

  predicate CancelAsked(r: Row) { r.cancelRequested || r.status.Canceling? }

  /** q is what is left of the executing row r: canceled or failed with the
      latest results, or waiting again with the results it is to be merged
      with; its claim and its record are gone. */
  predicate Settled(r: Row, q: Row, startupError: bool) {
    && q.token.None? && q.lease.None? && q.live.None? && q.activity.None? && q.snapshot == r.snapshot
    && if CancelAsked(r) then q.status.Canceled? && q.result == Latest(r) && q.retryCodes.None?
       else
         && q.retryCodes == r.retryCodes && !q.cancelRequested
         && if startupError then q.status.Failed? && q.result == Latest(r)
            else q.status.Queued? && q.result == if r.retryCodes.None? then None else r.result
  }

  /** The claim and its results are as they were; a user may have asked to
      cancel, or to run more checks. */
  predicate SameClaim(r: Row, q: Row) {
    && Executing(q) && q.token == r.token && q.live == r.live && q.result == r.result && q.snapshot == r.snapshot
    && (CancelAsked(r) ==> CancelAsked(q))
    && (r.retryCodes.Some? ==> q.retryCodes.Some? && r.retryCodes.value <= q.retryCodes.value)
  }

  /** Decided on row r, written to row q. */
  lemma RowSettles(r: Row, q: Row, k: nat, startupError: bool)
    requires Owned(r, k) && Executing(r) && SameClaim(r, q) && RowOk(q)
    ensures var z := ApplyDecision(q, k, Decide(r, k, startupError));
      if CancelAsked(q) && !CancelAsked(r) then z == q && q.status.Canceling? else Settled(q, z, startupError)
  {
  }

  // ---- nobody works on the task ---------------------------------------------------------------

  predicate Unworked(w: World, t: TaskId) {
    forall p <- w.live :: w.live[p].task == t ==> !w.live[p].permitted
  }

  lemma DeadIsUnworked(w: World, t: TaskId)
    requires ProcessInv(w) && w.sup.Serving? && (t in w.sup.active ==> w.sup.active[t].process !in w.live)
    ensures Unworked(w, t)
  {
    assert forall p <- w.live :: w.live[p].permitted ==> IsManaged(w, p);
  }

  lemma UserKeepsClaim(r: Row, c: UserChange)
    requires RowOk(r) && Executing(r)
    ensures SameClaim(r, ApplyUser(r, c))
  {
  }

  lemma StepKeepsClaim(w: World, s: Step, t: TaskId)
    requires Safety.RowsInv(w) && IsEnvironment(s) && Unworked(w, t) && t < w.nextTask
    ensures var v := Apply(w, s);
      && v.sup == w.sup && Unworked(v, t) && t < v.nextTask
      && (t in v.rows ==> t in w.rows && (Executing(w.rows[t]) ==> SameClaim(w.rows[t], v.rows[t])))
  {
    if s.User? && s.task == t && t in w.rows && Executing(w.rows[t]) { UserKeepsClaim(w.rows[t], s.userChange); }
  }

  lemma {:induction false} EnvKeepsClaim(w: World, env: seq<Step>, t: TaskId)
    requires Safety.RowsInv(w) && Unworked(w, t) && t in w.rows && Executing(w.rows[t])
    requires forall s <- env :: IsEnvironment(s)
    ensures var v := Run(w, env);
      && Safety.RowsInv(v) && v.sup == w.sup && Unworked(v, t)
      && (t in v.rows ==> SameClaim(w.rows[t], v.rows[t]))
    decreases |env|
  {
    if env != [] {
      assert env[0] in env;
      var u := Apply(w, env[0]);
      StepKeepsClaim(w, env[0], t);
      Safety.RowsInvStep(w, env[0]);
      if t in u.rows { EnvKeepsClaim(u, env[1..], t); } else { EnvKeepsGone(u, env[1..], t); }
    }
  }

  lemma {:induction false} EnvKeepsGone(w: World, env: seq<Step>, t: TaskId)
    requires Safety.RowsInv(w) && Unworked(w, t) && t !in w.rows && t < w.nextTask
    requires forall s <- env :: IsEnvironment(s)
    ensures var v := Run(w, env); Safety.RowsInv(v) && v.sup == w.sup && Unworked(v, t) && t !in v.rows
    decreases |env|
  {
    if env != [] {
      assert env[0] in env;
      StepKeepsClaim(w, env[0], t);
      Safety.RowsInvStep(w, env[0]);
      EnvKeepsGone(Apply(w, env[0]), env[1..], t);
    }
  }

  // ---- recovery, with anything in between ---------------------------------------------------------

  /** What a recovery that read row r leaves of the row q it finds when it
      writes: a cancel asked for in between stays for the lease to end. */
  predicate Recovered(r: Row, q: Row, z: Row, startupError: bool) {
    SameClaim(r, q) && if CancelAsked(q) && !CancelAsked(r) then z == q && q.status.Canceling? else Settled(q, z, startupError)
  }

  /** The row is gone before and after, or recovered. */
  predicate RecoveredIn(r: Row, v: World, z: World, t: TaskId, startupError: bool) {
    (t in z.rows <==> t in v.rows) && (t in v.rows ==> t in z.rows && Recovered(r, v.rows[t], z.rows[t], startupError))
  }

  lemma ReapWrites(w: World, t: TaskId, startupError: bool, v: World, z: World)
    requires w.sup.Serving? && t in w.sup.active && t in w.rows && Executing(w.rows[t]) && Owned(w.rows[t], w.sup.active[t].token)
    requires v.sup == w.sup.(reaping := Some((t, Decide(w.rows[t], w.sup.active[t].token, startupError))))
    requires (t in v.rows ==> RowOk(v.rows[t]) && SameClaim(w.rows[t], v.rows[t])) && z == Apply(v, ReapWrite)
    ensures z.sup.Serving? && t !in z.sup.active && RecoveredIn(w.rows[t], v, z, t, startupError)
  {
    if t in v.rows { RowSettles(w.rows[t], v.rows[t], w.sup.active[t].token, startupError); }
  }

  /** The supervisor is between its other steps, and the process of task t has exited. */
  predicate CanReap(w: World, t: TaskId) {
    && w.sup.Serving? && w.sup.launch.Idle? && w.sup.claimed == [] && w.sup.reaping.None?
    && t in w.sup.active && w.sup.active[t].process !in w.live
  }

  lemma ReapReads(w: World, t: TaskId, startupError: bool)
    requires ProcessInv(w) && Safety.RowsInv(w) && CanReap(w, t) && t in w.rows
    ensures var u := Apply(w, ReapRead(t, startupError));
      Safety.RowsInv(u) && Unworked(u, t) && u == w.(sup := w.sup.(reaping := Some((t, Decide(w.rows[t], w.sup.active[t].token, startupError)))))
  {
    DeadIsUnworked(w, t);
  }

  /** A read changes no row; what follows keeps the claim. */
  lemma ReadKeepsClaim(w: World, t: TaskId, env: seq<Step>, u: World, v: World)
    requires Safety.RowsInv(u) && Unworked(u, t) && u.rows == w.rows && t in w.rows && Executing(w.rows[t])
    requires (forall s <- env :: IsEnvironment(s)) && v == Run(u, env)
    ensures v.sup == u.sup && (t in v.rows ==> RowOk(v.rows[t]) && SameClaim(w.rows[t], v.rows[t]))
  {
    EnvKeepsClaim(u, env, t);
  }

  lemma ReapRecoversFrom(w: World, t: TaskId, startupError: bool, env: seq<Step>, u: World, v: World, z: World)
    requires ProcessInv(w) && Safety.RowsInv(w) && CanReap(w, t) && forall s <- env :: IsEnvironment(s)
    requires t in w.rows && Executing(w.rows[t]) && Owned(w.rows[t], w.sup.active[t].token)
    requires u == Apply(w, ReapRead(t, startupError)) && v == Run(u, env) && z == Apply(v, ReapWrite)
    ensures z.sup.Serving? && t !in z.sup.active && RecoveredIn(w.rows[t], v, z, t, startupError)
  {
    ReapReads(w, t, startupError);
    ReadKeepsClaim(w, t, env, u, v);
    ReapWrites(w, t, startupError, v, z);
  }

  /** Reaping a process that has exited, in any reachable state, with anything
      users do meanwhile: unless its task was deleted, the task whose claim the
      process had is canceled if a cancel was asked for before the read, left
      canceling if one came after it, failed with its latest results after a
      startup error, and queued again otherwise. */
  lemma ReapRecovers(limits: Limits, now: int, before: seq<Step>, t: TaskId, startupError: bool, env: seq<Step>,
                     w: World, u: World, v: World, z: World)
    requires w == Run(Init(limits, now), before) && CanReap(w, t) && forall s <- env :: IsEnvironment(s)
    requires t in w.rows && Executing(w.rows[t]) && Owned(w.rows[t], w.sup.active[t].token)
    requires u == Apply(w, ReapRead(t, startupError)) && v == Run(u, env) && z == Apply(v, ReapWrite)
    ensures z.sup.Serving? && t !in z.sup.active
    ensures RecoveredIn(w.rows[t], v, z, t, startupError)
  {
    ProcessInvHolds(Init(limits, now), before);
    Safety.RowsInvHolds(Init(limits, now), before);
    ReapRecoversFrom(w, t, startupError, env, u, v, z);
  }

  lemma RestoreWrites(w: World, f: FileRecord, startupError: bool, v: World)
    requires w.sup.Restoring? && f.task in w.rows && Executing(w.rows[f.task]) && Owned(w.rows[f.task], f.token)
    requires v.sup == w.sup.(reading := Some((f, Decide(w.rows[f.task], f.token, startupError))))
    requires f.task in v.rows ==> RowOk(v.rows[f.task]) && SameClaim(w.rows[f.task], v.rows[f.task])
    ensures RecoveredIn(w.rows[f.task], v, Apply(v, RestoreWrite), f.task, startupError)
  {
    if f.task in v.rows { RowSettles(w.rows[f.task], v.rows[f.task], f.token, startupError); }
  }

  lemma RecordReads(w: World, f: FileRecord, startupError: bool)
    requires ProcessInv(w) && Safety.RowsInv(w) && w.sup.Restoring? && w.sup.reading.None? && f in w.sup.records && f.task in w.rows
    ensures var u := Apply(w, RestoreRead(f, startupError));
      && Safety.RowsInv(u) && Unworked(u, f.task)
      && u == w.(sup := w.sup.(reading := Some((f, Decide(w.rows[f.task], f.token, startupError)))))
  {
  }

  lemma RestartRecoversFrom(w: World, f: FileRecord, startupError: bool, env: seq<Step>, u: World, v: World)
    requires ProcessInv(w) && Safety.RowsInv(w) && w.sup.Restoring? && w.sup.reading.None? && f in w.sup.records
    requires forall s <- env :: IsEnvironment(s)
    requires f.task in w.rows && Executing(w.rows[f.task]) && Owned(w.rows[f.task], f.token)
    requires u == Apply(w, RestoreRead(f, startupError)) && v == Run(u, env)
    ensures RecoveredIn(w.rows[f.task], v, Apply(v, RestoreWrite), f.task, startupError)
  {
    RecordReads(w, f, startupError);
    ReadKeepsClaim(w, f.task, env, u, v);
    RestoreWrites(w, f, startupError, v);
  }

  /** The same of every process on file when a new supervisor starts. */
  lemma RestartRecovers(limits: Limits, now: int, before: seq<Step>, f: FileRecord, startupError: bool, env: seq<Step>,
                        w: World, u: World, v: World, z: World)
    requires w == Run(Init(limits, now), before) && w.sup.Restoring? && w.sup.reading.None? && f in w.sup.records
    requires forall s <- env :: IsEnvironment(s)
    requires f.task in w.rows && Executing(w.rows[f.task]) && Owned(w.rows[f.task], f.token)
    requires u == Apply(w, RestoreRead(f, startupError)) && v == Run(u, env) && z == Apply(v, RestoreWrite)
    ensures RecoveredIn(w.rows[f.task], v, z, f.task, startupError)
  {
    ProcessInvHolds(Init(limits, now), before);
    Safety.RowsInvHolds(Init(limits, now), before);
    RestartRecoversFrom(w, f, startupError, env, u, v);
  }

  // ---- claims whose lease is over -------------------------------------------------------------------

  /** Executing under a lease that is over, without a process of this supervisor. */
  predicate LeaseLost(r: Row, now: int, managed: bool) {
    Executing(r) && !managed && r.lease.Some? && r.lease.value <= now
  }

  /** The claim ends; what was stored before it stays, its live results do not. */
  predicate SweptAs(r: Row, q: Row) {
    && q.token.None? && q.lease.None? && q.live.None? && q.snapshot == r.snapshot && q.owner == r.owner
    && if CancelAsked(r) then q.status.Canceled? && q.retryCodes.None? && q.result == r.result
       else q.status.Queued? && !q.cancelRequested && q.retryCodes == r.retryCodes && q.result == if r.retryCodes.None? then None else r.result
  }

  lemma SweepRow(r: Row, now: int, managed: bool)
    requires RowOk(r)
    ensures var q := Sweep(r, now, managed);
      if LeaseLost(r, now, managed) then SweptAs(r, q)
      else q == r.(activity := q.activity) && (Active(r) ==> View(q) == View(r))
  {
  }

  /** Waiting, or just back, and now running under a claim. */
  predicate ClaimedAs(r: Row, q: Row, now: int, managed: bool, token: nat) {
    && (r.status.Queued? || (LeaseLost(r, now, managed) && !CancelAsked(r)))
    && q.status.Running? && q.token == Some(token) && q.lease == Some(now + 90) && q.retryCodes == r.retryCodes
    && q.result == if r.status.Queued? || r.retryCodes.Some? then r.result else None
  }

  lemma ClaimRow(r: Row, now: int, managed: bool, token: nat)
    requires RowOk(r) && Sweep(r, now, managed).status.Queued?
    ensures ClaimedAs(r, SweepThenClaim(r, now, managed, Some(token)), now, managed, token)
  {
  }

  predicate ClaimShows(r: Row, q: Row, now: int, managed: bool, token: Option<nat>) {
    if token.Some? then ClaimedAs(r, q, now, managed, token.value)
    else if LeaseLost(r, now, managed) then SweptAs(r, q)
    else q == r.(activity := q.activity) && (Active(r) ==> View(q) == View(r))
  }

  /** The place of a task among the chosen ones. */
  predicate ChosenAt(chosen: seq<TaskId>, t: TaskId, i: nat) { i < |chosen| && chosen[i] == t }

  lemma ClaimedRow(w: World, chosen: seq<TaskId>, t: TaskId)
    requires CanClaim(w, chosen) && t in w.rows
    ensures var v := Apply(w, ClaimTasks(chosen));
      t in v.rows && v.rows[t] == SweepThenClaim(w.rows[t], w.now, t in w.sup.active, TokenFor(w, chosen, t))
    ensures t in chosen ==> Sweep(w.rows[t], w.now, t in w.sup.active).status.Queued?
  {
    assert SweepAll(w)[t] == Sweep(w.rows[t], w.now, t in w.sup.active);
  }

  lemma RowShows(r: Row, q: Row, now: int, managed: bool, token: Option<nat>)
    requires RowOk(r) && q == SweepThenClaim(r, now, managed, token) && (token.Some? ==> Sweep(r, now, managed).status.Queued?)
    ensures ClaimShows(r, q, now, managed, token)
  {
    if token.Some? { ClaimRow(r, now, managed, token.value); } else { SweepRow(r, now, managed); }
  }

  lemma ReachedRowOk(limits: Limits, now: int, before: seq<Step>, w: World, t: TaskId)
    requires w == Run(Init(limits, now), before) && t in w.rows
    ensures RowOk(w.rows[t])
  {
    Safety.RowsInvHolds(Init(limits, now), before);
  }

  lemma TokenAt(w: World, chosen: seq<TaskId>, t: TaskId, i: nat)
    requires Distinct(chosen)
    ensures ChosenAt(chosen, t, i) ==> TokenFor(w, chosen, t) == Some(w.nextToken + i)
    ensures t !in chosen ==> TokenFor(w, chosen, t) == None
  {
    if ChosenAt(chosen, t, i) { assert IndexOf(chosen, t) == i; }
  }

  /** A claim transaction ends exactly the claims whose lease is over and that
      no process of this supervisor holds, leaves every other task as its
      readers see it, and gives each chosen task, which waited or just came
      back, a fresh token and a full lease. */
  lemma ClaimMeans(limits: Limits, now: int, before: seq<Step>, chosen: seq<TaskId>, t: TaskId, w: World, v: World, i: nat)
    requires w == Run(Init(limits, now), before) && CanClaim(w, chosen) && v == Apply(w, ClaimTasks(chosen))
    requires t in w.rows && (t in chosen ==> ChosenAt(chosen, t, i))
    ensures t in v.rows
    ensures ClaimShows(w.rows[t], v.rows[t], w.now, t in w.sup.active, if t in chosen then Some(w.nextToken + i) else None)
  {
    ReachedRowOk(limits, now, before, w, t);
    ClaimedRow(w, chosen, t);
    TokenAt(w, chosen, t, i);
    RowShows(w.rows[t], v.rows[t], w.now, t in w.sup.active, TokenFor(w, chosen, t));
  }
}
