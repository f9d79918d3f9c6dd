/** The places the protocol hands out: with fixed limits no reachable state has
    more executing or managed tasks than the global limit, more of one owner
    than the user limit, or more managed processes than the pool. */
module Capacity {
  import opened Options
  import opened Collections
  import opened TaskRows
  import opened Lifecycle
  import opened TaskSafety
  import Act = CheckActivity

  ghost predicate ClaimOk(w: World, c: Claimed) {
    && c.task < w.nextTask && c.token < w.nextToken
    && (c.task in w.rows ==> Owned(w.rows[c.task], c.token))
    && (forall p :: p in w.live ==> w.live[p].token != c.token)
  }

  ghost predicate PoolOk(w: World)
    requires w.sup.Serving?
  {
    var u := w.sup;
    && |u.active| + |u.claimed| <= w.limits.processes
    && (forall t :: t in u.active ==> t < w.nextTask)
    && (forall c <- u.claimed :: ClaimOk(w, c) && c.task !in u.active)
    && (forall i, j :: 0 <= i < j < |u.claimed| ==> u.claimed[i].task != u.claimed[j].task && u.claimed[i].token != u.claimed[j].token)
    && (u.reaping.Some? ==> u.claimed == [])
  }

  ghost predicate PlacesOk(w: World) {
    && RowsInv(w)
    && w.limits.total <= w.limits.processes
    && (forall p :: p in w.live ==> w.live[p].token < w.nextToken)
    && (w.sup.Serving? ==> PoolOk(w))
  }

  ghost predicate WithinTotal(w: World) { |Busy(w.rows, ActiveTasks(w))| <= w.limits.total }

  ghost predicate WithinUser(w: World, owner: string) { |BusyOf(w.rows, ActiveTasks(w), owner)| <= w.limits.user }

  // ---- an event frees places or keeps them ----------------------------------------------

  lemma EventStartsNothing(r: Row, e: Event)
    requires Granted(e) == None
    ensures Executing(ApplyEvent(r, e)) ==> Executing(r)
    ensures !e.Moved? ==> ApplyEvent(r, e).owner == r.owner
  {
    match e
    case ByUser(c) => UserStartsNothing(r, c);
    case Swept(now, managed, _) =>
    case _ =>
  }

  lemma UserStartsNothing(r: Row, c: UserChange)
    ensures Executing(ApplyUser(r, c)) == Executing(r) && ApplyUser(r, c).owner == r.owner
    ensures Executing(r) ==> ApplyUser(r, c).token == r.token
  {
  }

  lemma GrantStartsOne(r: Row, now: int, managed: bool, k: Option<Act.Token>)
    ensures var q := SweepThenClaim(r, now, managed, k);
      && (Executing(q) ==> k.Some? || Executing(Sweep(r, now, managed)))
      && q.owner == r.owner && Sweep(r, now, managed).owner == r.owner
  {
  }

  // ---- steps of everyone but a claim -----------------------------------------------------

  /** Whoever takes a place after a step that is not a claim had it before. */
  lemma NoNewBusy(w: World, s: Step, t: TaskId)
    requires PlacesOk(w) && !Claims(w, s) && t in Busy(Apply(w, s).rows, ActiveTasks(Apply(w, s)))
    ensures t in Busy(w.rows, ActiveTasks(w))
    ensures !s.MigrateOwner? ==> Apply(w, s).rows[t].owner == w.rows[t].owner
  {
    StepKeepsTable(w, s);
    ActiveGrowsFromClaims(w, s, t);
    if t in w.rows {
      StepActsByEvent(w, s, t);
      NoGrant(w, s, t);
      EventStartsNothing(w.rows[t], EventOf(w, s, t));
    }
  }

  lemma NoGrant(w: World, s: Step, t: TaskId)
    requires !Claims(w, s)
    ensures Granted(EventOf(w, s, t)) == None && (EventOf(w, s, t).Moved? ==> s.MigrateOwner?)
  {
  }

  lemma OnlySpawnsManage(w: World, s: Step, t: TaskId)
    requires t in ActiveTasks(Apply(w, s)) && t !in ActiveTasks(w)
    ensures s.Spawn? && w.sup.Serving? && w.sup.claimed != [] && t == w.sup.claimed[0].task && Apply(w, s).rows == w.rows
  {
  }

  lemma ActiveGrowsFromClaims(w: World, s: Step, t: TaskId)
    requires PlacesOk(w) && !Claims(w, s)
    ensures t in ActiveTasks(Apply(w, s)) && t !in ActiveTasks(w) ==>
      && t < w.nextTask
      && (t in Apply(w, s).rows ==> t in w.rows && Executing(w.rows[t]))
  {
    if t in ActiveTasks(Apply(w, s)) && t !in ActiveTasks(w) {
      OnlySpawnsManage(w, s, t);
      assert ClaimOk(w, w.sup.claimed[0]);
    }
  }

  // ---- a claim -----------------------------------------------------------------------------

  lemma ClaimBusy(w: World, chosen: seq<TaskId>, t: TaskId)
    requires w.sup.Serving? && t in Busy(ClaimRows(w, chosen), w.sup.active.Keys)
    ensures t in chosen || t in Busy(SweepAll(w), w.sup.active.Keys)
    ensures ClaimRows(w, chosen)[t].owner == w.rows[t].owner && SweepAll(w)[t].owner == w.rows[t].owner
  {
    GrantStartsOne(w.rows[t], w.now, t in ActiveTasks(w), TokenFor(w, chosen, t));
  }

  lemma SweptBusy(w: World, t: TaskId)
    requires w.sup.Serving? && t in Busy(SweepAll(w), w.sup.active.Keys)
    ensures t in Busy(w.rows, w.sup.active.Keys) && SweepAll(w)[t].owner == w.rows[t].owner
  {
    EventStartsNothing(w.rows[t], Swept(w.now, t in ActiveTasks(w), None));
  }

  lemma ClaimBounds(w: World, chosen: seq<TaskId>)
    requires CanClaim(w, chosen)
    ensures chosen != [] ==> |chosen| + |Busy(SweepAll(w), w.sup.active.Keys)| <= w.limits.total
    ensures chosen != [] ==> |chosen| + |w.sup.active| <= w.limits.processes
  {
  }

  /** Busy tasks after a claim are those left by the sweep and the chosen ones. */
  lemma ClaimBusySize(w: World, chosen: seq<TaskId>)
    requires w.sup.Serving?
    ensures |Busy(ClaimRows(w, chosen), w.sup.active.Keys)| <= |Busy(SweepAll(w), w.sup.active.Keys)| + |chosen|
    ensures |Busy(SweepAll(w), w.sup.active.Keys)| <= |Busy(w.rows, w.sup.active.Keys)|
  {
    var managed := w.sup.active.Keys;
    var after, swept := Busy(ClaimRows(w, chosen), managed), Busy(SweepAll(w), managed);
    var picked := Members(chosen);
    forall t | t in after ensures t in swept + picked { ClaimBusy(w, chosen, t); }
    forall t | t in swept ensures t in Busy(w.rows, managed) { SweptBusy(w, t); }
    SubsetSize(after, swept + picked);
    SubsetSize(swept, Busy(w.rows, managed));
    UnionSize(swept, picked);
  }

  lemma ClaimWithinTotal(w: World, chosen: seq<TaskId>)
    requires CanClaim(w, chosen) && WithinTotal(w)
    ensures |Busy(ClaimRows(w, chosen), w.sup.active.Keys)| <= w.limits.total
  {
    ClaimBusySize(w, chosen);
    ClaimBounds(w, chosen);
  }

  lemma ClaimWithinUser(w: World, chosen: seq<TaskId>, owner: string)
    requires CanClaim(w, chosen) && WithinUser(w, owner)
    ensures |BusyOf(ClaimRows(w, chosen), w.sup.active.Keys, owner)| <= w.limits.user
  {
    var managed := w.sup.active.Keys;
    var after, swept := BusyOf(ClaimRows(w, chosen), managed, owner), BusyOf(SweepAll(w), managed, owner);
    var picked := ChosenOf(SweepAll(w), chosen, owner);
    forall t | t in after ensures t in swept + picked { ClaimBusy(w, chosen, t); }
    forall t | t in swept ensures t in BusyOf(w.rows, managed, owner) { SweptBusy(w, t); }
    SubsetSize(after, swept + picked);
    SubsetSize(swept, BusyOf(w.rows, managed, owner));
    UnionSize(swept, picked);
    if t :| t in picked { assert SweepAll(w)[t].owner == owner; } else { assert picked == {}; }
  }

  // ---- the pool of processes -------------------------------------------------------------------

  lemma EventKeepsClaim(r: Row, e: Event, k: Act.Token)
    requires Owned(r, k) && Executing(r)
    requires e.Untouched? || e.Moved? || e.ByUser? || (e.ByWorker? && e.worker != k)
    ensures Owned(ApplyEvent(r, e), k)
  {
    if e.ByUser? { UserStartsNothing(r, e.change); }
  }

  lemma EnvironmentKeepsPool(w: World, s: Step)
    requires PlacesOk(w) && IsEnvironment(s) && w.sup.Serving?
    ensures PoolOk(Apply(w, s))
  {
    var v := Apply(w, s);
    RowsInvStep(w, s);
    forall c | c in w.sup.claimed ensures ClaimOk(v, c) { EnvironmentKeepsClaim(w, s, c); }
  }

  /** No one outside the supervisor holds a token that is waiting to be used. */
  lemma EnvironmentEvent(w: World, s: Step, t: TaskId, k: Act.Token)
    requires IsEnvironment(s) && forall p :: p in w.live ==> w.live[p].token != k
    ensures var e := EventOf(w, s, t); e.Untouched? || e.Moved? || e.ByUser? || (e.ByWorker? && e.worker != k)
  {
  }

  lemma EnvironmentKeepsOwner(w: World, s: Step, t: TaskId, k: Act.Token)
    requires IsEnvironment(s) && t in w.rows && t in Apply(w, s).rows && t < w.nextTask
    requires Owned(w.rows[t], k) && Executing(w.rows[t]) && forall p :: p in w.live ==> w.live[p].token != k
    ensures Owned(Apply(w, s).rows[t], k)
  {
    EnvironmentActsByEvent(w, s, t);
    EnvironmentEvent(w, s, t, k);
    EventKeepsClaim(w.rows[t], EventOf(w, s, t), k);
  }

  lemma EnvironmentKeepsClaim(w: World, s: Step, c: Claimed)
    requires PlacesOk(w) && IsEnvironment(s) && w.sup.Serving? && c in w.sup.claimed
    ensures ClaimOk(Apply(w, s), c)
  {
    RowsInvStep(w, s);
    assert ClaimOk(w, c);
    if c.task in Apply(w, s).rows { EnvironmentKeepsOwner(w, s, c.task, c.token); }
    LiveShrinks(w, s);
  }

  lemma LiveShrinks(w: World, s: Step)
    requires IsEnvironment(s)
    ensures forall p :: p in Apply(w, s).live ==> p in w.live && Apply(w, s).live[p] == w.live[p]
  {
  }

  lemma IndexOfDistinct(s: seq<TaskId>, i: nat)
    requires Distinct(s) && i < |s|
    ensures IndexOf(s, s[i]) == i
  {
  }

  lemma ClaimedIsOwned(r: Row, now: int, managed: bool, k: Act.Token)
    requires Sweep(r, now, managed).status.Queued?
    ensures Owned(SweepThenClaim(r, now, managed, Some(k)), k)
  {
  }

  lemma ChosenFacts(w: World, chosen: seq<TaskId>)
    requires CanClaim(w, chosen)
    ensures Distinct(chosen)
    ensures forall t <- chosen :: t in w.rows && t !in w.sup.active && SweepAll(w)[t].status.Queued?
  {
  }

  lemma TokenAt(w: World, chosen: seq<TaskId>, i: nat)
    requires Distinct(chosen) && i < |chosen|
    ensures TokenFor(w, chosen, chosen[i]) == Some(w.nextToken + i)
  {
    IndexOfDistinct(chosen, i);
  }

  lemma SweptRow(w: World, chosen: seq<TaskId>, t: TaskId, k: Option<Act.Token>)
    requires t in w.rows && k == TokenFor(w, chosen, t)
    ensures SweepAll(w)[t] == Sweep(w.rows[t], w.now, t in ActiveTasks(w))
    ensures ClaimRows(w, chosen)[t] == SweepThenClaim(w.rows[t], w.now, t in ActiveTasks(w), k)
  {
  }

  lemma ClaimedOwned(w: World, chosen: seq<TaskId>, t: TaskId, k: Act.Token)
    requires t in w.rows && Some(k) == TokenFor(w, chosen, t) && SweepAll(w)[t].status.Queued?
    ensures Owned(ClaimRows(w, chosen)[t], k)
  {
    SweptRow(w, chosen, t, Some(k));
    ClaimedIsOwned(w.rows[t], w.now, t in ActiveTasks(w), k);
  }

  lemma ClaimedOk(w: World, v: World, chosen: seq<TaskId>, i: nat)
    requires i < |chosen| && chosen[i] < w.nextTask
    requires v.nextTask == w.nextTask && v.nextToken == w.nextToken + |chosen| && v.live == w.live
    requires forall p :: p in w.live ==> w.live[p].token < w.nextToken
    requires chosen[i] in v.rows ==> Owned(v.rows[chosen[i]], w.nextToken + i)
    ensures ClaimOk(v, Claimed(chosen[i], w.nextToken + i))
  {
  }

  lemma ClaimKeepsPool(w: World, chosen: seq<TaskId>)
    requires PlacesOk(w) && CanClaim(w, chosen)
    ensures PoolOk(AfterClaim(w, chosen))
  {
    ClaimBounds(w, chosen);
    ChosenFacts(w, chosen);
    PoolAfter(w, chosen);
  }

  lemma PoolAfter(w: World, chosen: seq<TaskId>)
    requires PlacesOk(w) && w.sup.Serving? && w.sup.claimed == [] && w.sup.reaping.None? && Distinct(chosen)
    requires chosen != [] ==> |chosen| + |w.sup.active| <= w.limits.processes
    requires forall t <- chosen :: t in w.rows && t !in w.sup.active && SweepAll(w)[t].status.Queued?
    ensures PoolOk(AfterClaim(w, chosen))
  {
    var v := AfterClaim(w, chosen);
    forall i | 0 <= i < |chosen| ensures ClaimOk(v, v.sup.claimed[i]) && v.sup.claimed[i].task !in v.sup.active {
      assert chosen[i] in chosen;
      ClaimedAt(w, v, chosen, i);
    }
  }

  lemma ClaimedAt(w: World, v: World, chosen: seq<TaskId>, i: nat)
    requires Distinct(chosen) && i < |chosen| && chosen[i] in w.rows && SweepAll(w)[chosen[i]].status.Queued?
    requires chosen[i] < w.nextTask && forall p :: p in w.live ==> w.live[p].token < w.nextToken
    requires v.nextTask == w.nextTask && v.nextToken == w.nextToken + |chosen| && v.live == w.live && v.rows == ClaimRows(w, chosen)
    ensures ClaimOk(v, Claimed(chosen[i], w.nextToken + i))
  {
    TokenAt(w, chosen, i);
    ClaimedOwned(w, chosen, chosen[i], w.nextToken + i);
    ClaimedOk(w, v, chosen, i);
  }

  lemma SpawnKeepsPool(w: World, pid: nat)
    requires PlacesOk(w) && w.sup.Serving?
    ensures PoolOk(Apply(w, Spawn(pid)))
  {
    var v := Apply(w, Spawn(pid));
    forall c | c in v.sup.claimed ensures ClaimOk(v, c) && c.task !in v.sup.active {
      var i :| 0 <= i < |v.sup.claimed| && v.sup.claimed[i] == c;
      assert c in w.sup.claimed && ClaimOk(w, c);
    }
  }

  lemma SpawnFailsKeepsPool(w: World, d: Decision)
    requires PlacesOk(w) && w.sup.Serving?
    ensures PoolOk(Apply(w, SpawnFails(d)))
  {
    var v := Apply(w, SpawnFails(d));
    forall c | c in v.sup.claimed ensures ClaimOk(v, c) && c.task !in v.sup.active {
      var i :| 0 <= i < |v.sup.claimed| && v.sup.claimed[i] == c;
      assert c in w.sup.claimed && ClaimOk(w, c);
    }
  }

  lemma ReapKeepsPool(w: World, s: Step)
    requires PlacesOk(w) && w.sup.Serving? && (s.ReapRead? || s.ReapWrite?)
    ensures PoolOk(Apply(w, s))
  {
  }

  lemma OthersKeepPool(w: World, s: Step)
    requires PlacesOk(w) && w.sup.Serving? && (s.Identify? || s.SaveState? || s.Permit? || s.Abandon? || s.RenewLease? || s.RemoveFile?)
    ensures PoolOk(Apply(w, s))
  {
    var v := Apply(w, s);
    forall c | c in v.sup.claimed ensures ClaimOk(v, c) && c.task !in v.sup.active {
      assert c in w.sup.claimed && ClaimOk(w, c);
    }
  }

  lemma ServingKeepsPool(w: World, s: Step)
    requires PlacesOk(w) && w.sup.Serving? && !IsEnvironment(s) && !Claims(w, s)
    ensures var v := Apply(w, s); v.sup.Serving? ==> PoolOk(v)
  {
    if s.Spawn? { SpawnKeepsPool(w, s.pid); }
    else if s.SpawnFails? { SpawnFailsKeepsPool(w, s.found); }
    else if s.ReapRead? || s.ReapWrite? { ReapKeepsPool(w, s); }
    else if s.Identify? || s.SaveState? || s.Permit? || s.Abandon? || s.RenewLease? || s.RemoveFile? { OthersKeepPool(w, s); }
  }

  lemma LimitsStayOk(w: World, s: Step)
    requires w.limits.total <= w.limits.processes
    ensures Apply(w, s).limits.total <= Apply(w, s).limits.processes
  {
    if !s.ChangeLimits? { LimitsFixed(w, s); }
  }

  /** New processes get tokens that were handed out. */
  lemma LiveTokensBelow(w: World, s: Step)
    requires PlacesOk(w)
    ensures forall p :: p in Apply(w, s).live ==> Apply(w, s).live[p].token < Apply(w, s).nextToken
  {
    StepKeepsTable(w, s);
    if IsEnvironment(s) { LiveShrinks(w, s); }
    else if s.Spawn? { SpawnsClaimed(w, s.pid); }
    else { OthersStartNothing(w, s); }
  }

  lemma SpawnsClaimed(w: World, pid: nat)
    requires PlacesOk(w)
    ensures var v := Apply(w, Spawn(pid)); v.nextToken == w.nextToken && forall p :: p in v.live ==> v.live[p].token < w.nextToken
  {
    if w.sup.Serving? && w.sup.claimed != [] { assert ClaimOk(w, w.sup.claimed[0]); }
  }

  lemma OthersStartNothing(w: World, s: Step)
    requires !IsEnvironment(s) && !s.Spawn?
    ensures forall p :: p in Apply(w, s).live ==> p in w.live && Apply(w, s).live[p].token == w.live[p].token
  {
  }

  lemma PlacesOkStep(w: World, s: Step)
    requires PlacesOk(w)
    ensures PlacesOk(Apply(w, s))
  {
    RowsInvStep(w, s);
    LimitsStayOk(w, s);
    LiveTokensBelow(w, s);
    PoolStep(w, s);
  }

  lemma ServesFromServing(w: World, s: Step)
    requires !w.sup.Serving? && Apply(w, s).sup.Serving?
    ensures Apply(w, s).sup == Serving(map[], [], Idle, None)
  {
  }

  lemma PoolStep(w: World, s: Step)
    requires PlacesOk(w)
    ensures Apply(w, s).sup.Serving? ==> PoolOk(Apply(w, s))
  {
    if !w.sup.Serving? { if Apply(w, s).sup.Serving? { ServesFromServing(w, s); } }
    else if IsEnvironment(s) {
      EnvironmentKeepsPool(w, s);
    } else if Claims(w, s) {
      ClaimKeepsPool(w, s.chosen);
    } else {
      ServingKeepsPool(w, s);
    }
  }

  lemma CapacityStep(w: World, s: Step)
    requires PlacesOk(w) && WithinTotal(w) && !s.ChangeLimits?
    ensures WithinTotal(Apply(w, s))
  {
    if Claims(w, s) {
      ClaimWithinTotal(w, s.chosen);
    } else {
      var v := Apply(w, s);
      forall t | t in Busy(v.rows, ActiveTasks(v)) ensures t in Busy(w.rows, ActiveTasks(w)) { NoNewBusy(w, s, t); }
      SubsetSize(Busy(v.rows, ActiveTasks(v)), Busy(w.rows, ActiveTasks(w)));
      LimitsFixed(w, s);
    }
  }

  lemma LimitsFixed(w: World, s: Step)
    requires !s.ChangeLimits?
    ensures Apply(w, s).limits == w.limits
  {
    if IsEnvironment(s) { EnvironmentKeepsLimits(w, s); }
    else if w.sup.Serving? { ServingKeepsLimits(w, s); }
  }

  lemma EnvironmentKeepsLimits(w: World, s: Step)
    requires IsEnvironment(s) && !s.ChangeLimits?
    ensures Apply(w, s).limits == w.limits
  {
  }

  lemma ServingKeepsLimits(w: World, s: Step)
    requires !IsEnvironment(s) && w.sup.Serving?
    ensures Apply(w, s).limits == w.limits
  {
  }

  lemma ShareStep(w: World, s: Step, owner: string)
    requires PlacesOk(w) && WithinUser(w, owner) && !s.ChangeLimits? && !s.MigrateOwner?
    ensures WithinUser(Apply(w, s), owner)
  {
    if Claims(w, s) {
      ClaimWithinUser(w, s.chosen, owner);
    } else {
      var v := Apply(w, s);
      forall t | t in BusyOf(v.rows, ActiveTasks(v), owner) ensures t in BusyOf(w.rows, ActiveTasks(w), owner) { NoNewBusy(w, s, t); }
      SubsetSize(BusyOf(v.rows, ActiveTasks(v), owner), BusyOf(w.rows, ActiveTasks(w), owner));
      LimitsFixed(w, s);
    }
  }

  // ---- whole runs --------------------------------------------------------------------------------

  ghost predicate KeepsLimits(steps: seq<Step>) { forall s <- steps :: !s.ChangeLimits? }

  lemma {:induction false} CapacityRun(w: World, steps: seq<Step>)
    requires PlacesOk(w) && WithinTotal(w) && KeepsLimits(steps)
    ensures PlacesOk(Run(w, steps)) && WithinTotal(Run(w, steps))
    decreases |steps|
  {
    if steps != [] {
      PlacesOkStep(w, steps[0]);
      CapacityStep(w, steps[0]);
      CapacityRun(Apply(w, steps[0]), steps[1..]);
    }
  }

  lemma {:induction false} ShareRun(w: World, steps: seq<Step>, owner: string)
    requires PlacesOk(w) && WithinUser(w, owner) && KeepsLimits(steps) && forall s <- steps :: !s.MigrateOwner?
    ensures WithinUser(Run(w, steps), owner)
    decreases |steps|
  {
    if steps != [] {
      PlacesOkStep(w, steps[0]);
      ShareStep(w, steps[0], owner);
      ShareRun(Apply(w, steps[0]), steps[1..], owner);
    }
  }

  lemma {:induction false} PlacesOkRun(w: World, steps: seq<Step>)
    requires PlacesOk(w)
    ensures PlacesOk(Run(w, steps))
    decreases |steps|
  {
    if steps != [] {
      PlacesOkStep(w, steps[0]);
      PlacesOkRun(Apply(w, steps[0]), steps[1..]);
    }
  }

  /** With fixed limits, executing and managed tasks never exceed the global
      limit, whatever crashes, retries and deletions happen in between. */
  lemma GlobalLimitHolds(limits: Limits, now: int, steps: seq<Step>)
    requires KeepsLimits(steps)
    ensures var w := Run(Init(limits, now), steps);
      |Busy(w.rows, ActiveTasks(w))| <= w.limits.total <= w.limits.processes
  {
    var w := Init(limits, now);
    assert Busy(w.rows, ActiveTasks(w)) == {};
    CapacityRun(w, steps);
  }

  /** Without owner migration each owner's share never exceeds the user limit. */
  lemma UserLimitHolds(limits: Limits, now: int, steps: seq<Step>, owner: string)
    requires KeepsLimits(steps) && forall s <- steps :: !s.MigrateOwner?
    ensures var w := Run(Init(limits, now), steps);
      |BusyOf(w.rows, ActiveTasks(w), owner)| <= w.limits.user
  {
    var w := Init(limits, now);
    assert BusyOf(w.rows, ActiveTasks(w), owner) == {};
    ShareRun(w, steps, owner);
  }

  /** In every reachable state, even with changing limits, the pool is never
      over-committed and no claimed task is already managed: the launch loop's
      "already managed" branch is unreachable. */
  lemma LaunchNeverMeetsManagedTask(limits: Limits, now: int, steps: seq<Step>)
    ensures var w := Run(Init(limits, now), steps);
      w.sup.Serving? ==>
        && |w.sup.active| + |w.sup.claimed| <= w.limits.processes
        && forall c <- w.sup.claimed :: c.task !in w.sup.active
  {
    PlacesOkRun(Init(limits, now), steps);
  }

  /** Moving one owner's tasks to another adds up their shares, so the new
      owner's limit holds afterwards exactly when the sum is within it. */
  lemma MigrationAddsShares(w: World, from: string, to: string)
    requires from != to
    ensures var v := Apply(w, MigrateOwner(from, to));
      WithinUser(v, to) <==> |BusyOf(w.rows, ActiveTasks(w), from)| + |BusyOf(w.rows, ActiveTasks(w), to)| <= w.limits.user
  {
    MigrationMoves(w, from, to);
    assert BusyOf(w.rows, ActiveTasks(w), from) !! BusyOf(w.rows, ActiveTasks(w), to);
  }

  lemma MigrationMoves(w: World, from: string, to: string)
    requires from != to
    ensures var v := Apply(w, MigrateOwner(from, to));
      BusyOf(v.rows, ActiveTasks(v), to) == BusyOf(w.rows, ActiveTasks(w), from) + BusyOf(w.rows, ActiveTasks(w), to)
    ensures Apply(w, MigrateOwner(from, to)).limits == w.limits
  {
  }
}
