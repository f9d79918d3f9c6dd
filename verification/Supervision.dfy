/** The supervisor's loops (app/tasks/supervisor.py) over the shared state, with
    anything the environment may do between two of their steps.  What they do is
    always a run of Lifecycle, so its safety theorems hold at every point. */
module Supervision {
  import opened Options
  import opened Collections
  import opened TaskRows
  import opened Lifecycle
  import opened ProcessSafety
  import opened Recovery
  import opened RecoverySweep

  lemma {:induction false} RunSnoc(w: World, steps: seq<Step>, s: Step)
    ensures Run(w, steps + [s]) == Apply(Run(w, steps), s)
    decreases |steps|
  {
    if steps == [] {
      assert ([s])[1..] == [];
      assert [] + [s] == [s];
    } else {
      assert (steps + [s])[0] == steps[0] && (steps + [s])[1..] == steps[1..] + [s];
      RunSnoc(Apply(w, steps[0]), steps[1..], s);
    }
  }

  predicate Outside(env: seq<Step>) { forall s <- env :: IsEnvironment(s) }

  /** How the start of one process turns out: no process, a process whose
      identity or state file write fails, or one that is given permission. */
  datatype Start = NoProcess | Unidentified(pid: nat) | Unsaved(pid: nat) | Started(pid: nat, delivered: bool)

  /** The supervisor between two of its own methods. */
  predicate Ready(w: World) {
    w.sup.Serving? && w.sup.claimed == [] && w.sup.launch.Idle? && w.sup.reaping.None?
  }

  predicate PidFree(w: World, pid: nat) { forall p <- w.live :: p.pid != pid }

  class TaskSupervisor {
    var world: World
    ghost const begin: World
    ghost var trace: seq<Step>

    /** Where things stand is a run from where they began. */
    ghost predicate Valid()
      reads this
    {
      world == Run(begin, trace) && AllInv(begin)
    }

    lemma StandsWell()
      requires Valid()
      ensures AllInv(world)
    {
      AllInvHolds(begin, trace);
    }

    constructor (limits: Limits, now: int)
      ensures Valid() && begin == Init(limits, now) && trace == []
    {
      world, begin, trace := Init(limits, now), Init(limits, now), [];
    }

    /** Whatever the loops below have done, no task has two permitted workers,
        and each permitted worker is on file. */
    lemma IsSafe(limits: Limits, now: int)
      requires Valid() && begin == Init(limits, now)
      ensures Exclusive(world) && Recorded(world)
    {
      OneWorkerPerTask(limits, now, trace);
    }

    method Do(s: Step)
      requires Valid()
      modifies this
      ensures Valid() && world == Apply(old(world), s) && trace == old(trace) + [s]
    {
      RunSnoc(begin, trace, s);
      world := Apply(world, s);
      trace := trace + [s];
    }

    /** The environment's turn: processes only die, and the supervisor's own state stays. */
    method Others(env: seq<Step>)
      requires Valid() && Outside(env)
      modifies this
      ensures Valid() && world == Run(old(world), env) && world.sup == old(world.sup) && OnlyDied(old(world), world)
    {
      var i := 0;
      while i < |env|
        invariant 0 <= i <= |env| && Valid() && world == Run(old(world), env[..i])
      {
        RunSnoc(old(world), env[..i], env[i]);
        assert env[..i + 1] == env[..i] + [env[i]];
        Do(env[i]);
        i := i + 1;
      }
      assert env[..i] == env;
      OutsideRun(old(world), env);
    }

    method ConfirmGone(records: set<FileRecord>) returns (ok: bool)
      requires Valid() && world.sup == Confirming(records)
      modifies this
      ensures Valid() && world == old(world).(sup := if ok then Restoring(records, None) else Down)
      ensures ok <==> Gone(records, world)
    {
      ok := forall r <- records :: r.created.Some? ==> ProcessId(r.pid, r.created.value) !in world.live;
      Do(if ok then Confirm else Crash);
    }

    method ReadRecord(ghost records: set<FileRecord>, r: FileRecord, startupError: bool)
      requires Valid() && world.sup == Restoring(records, None)
      modifies this
      ensures Valid() && world == Apply(old(world), RestoreRead(r, startupError)) && world.live == old(world.live)
      ensures world.sup.Restoring? && world.sup.records == records
    {
      Do(RestoreRead(r, startupError));
    }

    /** _recover_owned_task for one record of the last supervisor. */
    method RestoreOne(ghost records: set<FileRecord>, r: FileRecord, startupError: bool, env: seq<Step>)
      requires Valid() && world.sup == Restoring(records, None) && r in records && Outside(env)
      modifies this
      ensures Valid() && world.sup == Restoring(records, None) && OnlyDied(old(world), world)
      ensures world == AfterRestore(old(world), r, startupError, env)
    {
      ReadRecord(records, r, startupError);
      Others(env);
      Do(RestoreWrite);
    }

    /** Recovers the task of every process on file, one after the other. */
    method RestoreAll(ghost recorded: set<FileRecord>, records: seq<FileRecord>, env: nat -> seq<Step>, startupError: FileRecord -> bool, ghost start: World)
      requires Valid() && world.sup == Restoring(recorded, None) && Gone(recorded, world) && forall n :: Outside(env(n))
      requires forall r :: r in records <==> r in recorded
      requires forall f <- recorded :: LetsBe(env(0), start, f.task) && SparedBy(env, f.task) ==> Restored(start, world, f, false, startupError(f))
      modifies this
      ensures Valid() && world.sup == Restoring(recorded, None) && Gone(recorded, world)
      ensures forall f <- recorded :: LetsBe(env(0), start, f.task) && SparedBy(env, f.task) ==> Restored(start, world, f, true, startupError(f))
    {
      var i := 0;
      while i < |records|
        invariant 0 <= i <= |records| && Valid() && world.sup == Restoring(recorded, None) && Gone(recorded, world)
        invariant forall f <- recorded :: LetsBe(env(0), start, f.task) && SparedBy(env, f.task) ==>
          Restored(start, world, f, f in records[..i], startupError(f))
      {
        ghost var was := world;
        StandsWell();
        Others(env(2 * i + 1));
        ghost var mid := world;
        StandsWell();
        RestoreOne(recorded, records[i], startupError(records[i]), env(2 * i + 2));
        assert records[..i + 1] == records[..i] + [records[i]];
        forall f | f in recorded && LetsBe(env(0), start, f.task) && SparedBy(env, f.task)
          ensures Restored(start, world, f, f in records[..i + 1], startupError(f))
        {
          TurnRestores(start, was, env(2 * i + 1), mid, records[i], startupError(records[i]), env(2 * i + 2), f, f in records[..i], startupError(f));
        }
        i := i + 1;
      }
      assert records[..i] == records;
    }

    /** Reads the file and waits for its processes: each task is as before but for its owner. */
    method FindPrevious(env: seq<Step>, ghost records: set<FileRecord>, ghost startupError: FileRecord -> bool) returns (ok: bool)
      requires Valid() && world.sup.Down? && Outside(env) && world.file == Some(records)
      modifies this
      ensures Valid() && world.sup == if ok then Restoring(records, None) else Down
      ensures ok ==> Gone(records, world)
      ensures forall f <- records :: LetsBe(env, old(world), f.task) ==> Restored(old(world), world, f, false, startupError(f))
    {
      ghost var start := world;
      Do(Restart);
      StandsWell();
      Others(env);
      ghost var mid := world;
      ok := ConfirmGone(world.sup.records);
      forall f | f in records && LetsBe(env, start, f.task) ensures Restored(start, world, f, false, startupError(f)) {
        FirstRestores(start, env, f, startupError(f));
        assert world.rows == mid.rows && Restored(start, mid, f, false, startupError(f));
      }
    }

    /** _recover_previous_processes and what follows it: either every process on
        file is gone before the supervisor serves again, or it stops.  When it
        serves, the task of each process on file is settled, unless a user or
        its own worker got to it first. */
    method RecoverPreviousProcesses(records: seq<FileRecord>, env: nat -> seq<Step>, startupError: FileRecord -> bool) returns (ok: bool)
      requires Valid() && world.sup.Down? && forall n :: Outside(env(n))
      requires world.file.Some? && forall r :: r in records <==> r in world.file.value
      modifies this
      ensures Valid() && if ok then Ready(world) && world.sup.active == map[] else world.sup.Down?
      ensures ok ==> Gone(old(world.file.value), world)
      ensures ok ==> forall f <- records :: LetsBe(env(0), old(world), f.task) && SparedBy(env, f.task) ==>
        Restored(old(world), world, f, true, startupError(f))
    {
      ghost var start, recorded := world, world.file.value;
      ok := FindPrevious(env(0), recorded, startupError);
      if !ok { return; }
      RestoreAll(recorded, records, env, startupError, start);
      Do(Resume);
    }

    /** Recovers the task of a process that has exited, and lets the process go. */
    method ReapOne(t: TaskId, startupError: bool, env: seq<Step>)
      requires Valid() && Ready(world) && t in world.sup.active && Outside(env)
      modifies this
      ensures Valid() && Ready(world) && OnlyDied(old(world), world)
      ensures world == if CanReap(old(world), t) then AfterReap(old(world), t, startupError, env) else old(world)
      ensures world.sup.active == if CanReap(old(world), t) then old(world.sup.active) - {t} else old(world.sup.active)
    {
      if world.sup.active[t].process in world.live { return; }
      Do(ReapRead(t, startupError));
      Others(env);
      Do(ReapWrite);
    }

    /** A sweep over the first i entries of `order` that began in `start`. */
    ghost predicate Sweeping(start: World, order: seq<TaskId>, i: nat, env: nat -> seq<Step>, startupError: TaskId -> bool)
      reads this
    {
      && Valid() && Ready(world) && start.sup.Serving? && OnlyDied(start, world) && i <= |order|
      && (forall t <- world.sup.active :: t in start.sup.active && world.sup.active[t] == start.sup.active[t])
      && (forall k :: i <= k < |order| ==> order[k] in world.sup.active)
      && (forall k :: 0 <= k < i && order[k] in start.sup.active && start.sup.active[order[k]].process !in start.live ==> order[k] !in world.sup.active)
      && (forall k :: 0 <= k < |order| && SparedBy(env, order[k]) ==> Reaped(start, world, order[k], k < i, startupError(order[k])))
    }

    /** One turn of the sweep. */
    method ReapTurn(ghost start: World, order: seq<TaskId>, i: nat, env: nat -> seq<Step>, startupError: TaskId -> bool)
      requires i < |order| && Distinct(order) && Sweeping(start, order, i, env, startupError) && forall n :: Outside(env(n))
      modifies this
      ensures Sweeping(start, order, i + 1, env, startupError)
    {
      ghost var was := world;
      StandsWell();
      Others(env(2 * i));
      ghost var mid := world;
      StandsWell();
      ReapOne(order[i], startupError(order[i]), env(2 * i + 1));
      TurnReapsAll(start, was, mid, world, order, i, env, startupError);
    }

    /** _reap_finished_processes: `order` is the dictionary order of `_active`.
        Each process that has exited is let go, and its task is settled unless
        users got to it. */
    method ReapFinishedProcesses(order: seq<TaskId>, env: nat -> seq<Step>, startupError: TaskId -> bool)
      requires Valid() && Ready(world) && forall n :: Outside(env(n))
      requires Distinct(order) && forall t :: t in order <==> t in world.sup.active
      modifies this
      ensures Valid() && Ready(world)
      ensures forall t <- world.sup.active :: t in old(world.sup.active) && world.sup.active[t] == old(world.sup.active[t])
      ensures forall t <- old(world.sup.active) :: old(world.sup.active[t].process) !in old(world.live) ==> t !in world.sup.active
      ensures forall t <- order :: SparedBy(env, t) ==> Reaped(old(world), world, t, true, startupError(t))
    {
      ghost var start := world;
      var i := 0;
      while i < |order|
        invariant 0 <= i <= |order| && Sweeping(start, order, i, env, startupError)
      {
        ReapTurn(start, order, i, env, startupError);
        i := i + 1;
      }
      forall t | t in start.sup.active && start.sup.active[t].process !in start.live ensures t !in world.sup.active {
        assert t in order;
      }
    }

    /** The lease of one task, when its process is alive. */
    method RenewOne(t: TaskId)
      requires Valid() && Ready(world) && t in world.sup.active
      modifies this
      ensures Valid() && world == old(world).(rows := world.rows) && world.rows.Keys == old(world.rows.Keys)
      ensures Renewed(t) && forall x <- old(world.sup.active) :: old(Renewed(x)) ==> Renewed(x)
    {
      if world.sup.active[t].process in world.live { Do(RenewLease(t)); }
    }

    /** _maintain_active_processes, when leases are due: one transaction. */
    method RenewLeases(order: seq<TaskId>)
      requires Valid() && Ready(world) && forall t <- order :: t in world.sup.active
      modifies this
      ensures Valid() && world.sup == old(world.sup) && world.live == old(world.live)
      ensures world.rows.Keys == old(world.rows.Keys)
      ensures forall t <- order :: Renewed(t)
    {
      var i := 0;
      while i < |order|
        invariant 0 <= i <= |order| && Valid() && world == old(world).(rows := world.rows)
        invariant world.rows.Keys == old(world.rows.Keys)
        invariant forall k :: 0 <= k < i ==> Renewed(order[k])
      {
        assert order[i] in order;
        RenewOne(order[i]);
        i := i + 1;
      }
      forall t | t in order ensures Renewed(t) { var k :| 0 <= k < |order| && order[k] == t; }
    }

    /** A task that executes under the claim of its live process has a full lease. */
    ghost predicate Renewed(t: TaskId)
      reads this
    {
      && world.sup.Serving? && t in world.sup.active
      && (world.sup.active[t].process in world.live && t in world.rows && Executing(world.rows[t]) && Owned(world.rows[t], world.sup.active[t].token)
          ==> world.rows[t].lease == Some(world.now + LEASE_SECONDS))
    }

    /** In the middle of starting the process of task t. */
    ghost predicate Launching(c: Claimed, stage: Launch, left: seq<Claimed>, active: set<TaskId>)
      reads this
    {
      && Valid() && world.sup.Serving? && world.sup.reaping.None? && world.sup.launch == stage
      && world.sup.claimed == left && world.sup.active.Keys == active
      && c.task in active && world.sup.active[c.task].token == c.token
    }

    /** The process of a claim runs with its permission, or has exited since. */
    ghost predicate Runs(c: Claimed)
      reads this
    {
      && world.sup.Serving? && c.task in world.sup.active
      && world.sup.active[c.task].token == c.token && world.sup.active[c.task].identity.Some?
      && var p := world.sup.active[c.task].process; p in world.live ==> world.live[p].permitted
    }

    method SpawnProcess(pid: nat)
      requires Valid() && world.sup.Serving? && world.sup.claimed != [] && world.sup.launch.Idle? && world.sup.reaping.None?
      requires world.sup.claimed[0].task !in world.sup.active && PidFree(world, pid)
      modifies this
      ensures var c := old(world.sup.claimed[0]);
        Launching(c, Spawned(c.task), old(world.sup.claimed[1..]), old(world.sup.active.Keys) + {c.task})
    {
      Do(Spawn(pid));
    }

    method SetIdentity(c: Claimed, ghost left: seq<Claimed>, ghost active: set<TaskId>)
      requires Launching(c, Spawned(c.task), left, active)
      modifies this
      ensures Launching(c, Identified(c.task), left, active) && world.sup.active[c.task].identity.Some?
    {
      Do(Identify);
    }

    method WriteState(c: Claimed, ghost left: seq<Claimed>, ghost active: set<TaskId>)
      requires Launching(c, Identified(c.task), left, active) && world.sup.active[c.task].identity.Some?
      modifies this
      ensures Launching(c, Saved(c.task), left, active) && world.sup.active[c.task].identity.Some?
    {
      Do(SaveState);
    }

    method AllowStart(c: Claimed, delivered: bool, ghost left: seq<Claimed>, ghost active: set<TaskId>)
      requires Launching(c, Saved(c.task), left, active) && world.sup.active[c.task].identity.Some?
      modifies this
      ensures Launching(c, Idle, left, active)
      ensures delivered ==> Runs(c)
    {
      Do(Permit(delivered));
    }

    method GiveUp(c: Claimed, ghost stage: Launch, ghost left: seq<Claimed>, ghost active: set<TaskId>)
      requires Launching(c, stage, left, active)
      modifies this
      ensures Launching(c, Idle, left, active)
    {
      Do(Abandon(false));
    }

    method GiveBack(d: Decision)
      requires Valid() && world.sup.Serving? && world.sup.claimed != [] && world.sup.launch.Idle? && world.sup.reaping.None?
      modifies this
      ensures Valid() && world.sup.Serving? && world.sup.launch.Idle? && world.sup.reaping.None?
      ensures world == Apply(old(world), SpawnFails(d))
      ensures world.sup.claimed == old(world.sup.claimed[1..]) && world.sup.active == old(world.sup.active)
    {
      Do(SpawnFails(d));
    }

    /** The task of a claim whose process could not be started. */
    method FailClaim()
      requires Valid() && world.sup.Serving? && world.sup.claimed != [] && world.sup.launch.Idle? && world.sup.reaping.None?
      modifies this
      ensures Valid() && world.sup.Serving? && world.sup.launch.Idle? && world.sup.reaping.None?
      ensures world.sup.claimed == old(world.sup.claimed[1..]) && world.sup.active == old(world.sup.active)
      ensures var c := old(world.sup.claimed[0]); HoldsClaim(old(world), c) ==>
        c.task in world.rows && Settled(old(world.rows[c.task]), world.rows[c.task], true)
    {
      var c := world.sup.claimed[0];
      StandsWell();
      if HoldsClaim(world, c) { RowSettles(world.rows[c.task], world.rows[c.task], c.token, true); }
      GiveBack(if c.task in world.rows then Decide(world.rows[c.task], c.token, true) else Leave);
    }

    /** One turn of the launch loop: a claim's process is started and given its
        permission, or its task fails, unless users got to it. */
    method LaunchOne(start: Start, env: nat -> seq<Step>)
      requires Valid() && world.sup.Serving? && world.sup.claimed != [] && world.sup.launch.Idle? && world.sup.reaping.None?
      requires forall n :: Outside(env(n))
      modifies this
      ensures Valid() && world.sup.Serving? && world.sup.launch.Idle? && world.sup.reaping.None?
      ensures world.sup.claimed == old(world.sup.claimed[1..])
      ensures world.sup.active.Keys <= old(world.sup.active.Keys) + {old(world.sup.claimed[0].task)}
      ensures old(world.sup.active.Keys) <= world.sup.active.Keys
      ensures var c := old(world.sup.claimed[0]);
        && (start.Started? && start.delivered && PidFree(old(world), start.pid) && c.task !in old(world.sup.active) ==> Runs(c))
        && (start.NoProcess? && c.task !in old(world.sup.active) && HoldsClaim(old(world), c) && Spares(env(0), c.task) ==>
              c.task in world.rows && Settled(old(world.rows[c.task]), world.rows[c.task], true))
    {
      ghost var begun := world;
      StandsWell();
      var c := world.sup.claimed[0];
      Others(env(0));
      if c.task in world.sup.active {
        // still managed: the claim is passed over
        GiveBack(Leave);
        return;
      }
      if start.NoProcess? || !PidFree(world, start.pid) {
        if HoldsClaim(begun, c) && Spares(env(0), c.task) { ClaimStays(begun, env(0), c); }
        FailClaim();
        return;
      }
      ghost var left, active := world.sup.claimed[1..], world.sup.active.Keys + {c.task};
      SpawnProcess(start.pid);
      Others(env(1));
      if start.Unidentified? {
        GiveUp(c, Spawned(c.task), left, active);
        return;
      }
      SetIdentity(c, left, active);
      Others(env(2));
      if start.Unsaved? {
        GiveUp(c, Identified(c.task), left, active);
        return;
      }
      WriteState(c, left, active);
      Others(env(3));
      AllowStart(c, start.delivered, left, active);
    }

    /** The claim transaction. */
    method ClaimAvailableTasks(chosen: seq<TaskId>)
      requires Valid() && Ready(world) && CanClaim(world, chosen)
      modifies this
      ensures Valid() && world.sup.Serving? && world.sup.launch.Idle? && world.sup.reaping.None?
      ensures world.sup.active == old(world.sup.active)
      ensures |world.sup.claimed| == |chosen| && forall i :: 0 <= i < |chosen| ==> world.sup.claimed[i].task == chosen[i]
      ensures chosen != [] ==> |chosen| + |world.sup.active| <= old(world.limits.processes)
    {
      Do(ClaimTasks(chosen));
    }

    /** _launch_available_tasks: claims, then starts every claimed task once. */
    method LaunchAvailableTasks(chosen: seq<TaskId>, starts: nat -> Start, env: nat -> nat -> seq<Step>)
      requires Valid() && Ready(world) && CanClaim(world, chosen) && forall i, n :: Outside(env(i)(n))
      modifies this
      ensures Valid() && Ready(world)
      ensures old(world.sup.active.Keys) <= world.sup.active.Keys <= old(world.sup.active.Keys) + Members(chosen)
      ensures chosen != [] ==> |world.sup.active| <= old(world.limits.processes)
    {
      ghost var before, places := world.sup.active.Keys, world.limits.processes;
      ClaimAvailableTasks(chosen);
      ghost var claims := world.sup.claimed;
      var i := 0;
      while world.sup.claimed != []
        invariant 0 <= i <= |claims| && Valid() && world.sup.Serving? && world.sup.launch.Idle? && world.sup.reaping.None?
        invariant world.sup.claimed == claims[i..]
        invariant before <= world.sup.active.Keys <= before + Members(chosen)
        decreases |world.sup.claimed|
      {
        assert claims[i].task == chosen[i] && chosen[i] in chosen;
        LaunchOne(starts(i), env(i));
        i := i + 1;
      }
      UnionSize(before, Members(chosen));
      SubsetSize(world.sup.active.Keys, before + Members(chosen));
    }
  }

  /** The recorded processes that still run under their own creation time. */
  predicate Gone(records: set<FileRecord>, w: World) {
    forall r <- records :: r.created.Some? ==> ProcessId(r.pid, r.created.value) !in w.live
  }
}
