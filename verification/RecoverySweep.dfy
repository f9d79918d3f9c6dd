/** Recovery of all tasks of a sweep or a restart, one after the other, while
    the environment acts on the other tasks. */
module RecoverySweep {
  import opened Options
  import opened TaskRows
  import opened Lifecycle
  import opened ProcessSafety
  import opened Recovery
  import Safety = TaskSafety

  /** No user changes or deletes the task; it may still change owners. */
  predicate Spares(env: seq<Step>, t: TaskId) {
    forall s <- env :: !(s.User? && s.task == t) && s != Delete(t)
  }

  ghost predicate SparedBy(env: nat -> seq<Step>, t: TaskId) { forall n :: Spares(env(n), t) }

  /** No process that is alive works on the task either. */
  predicate LetsBe(env: seq<Step>, w: World, t: TaskId) {
    Spares(env, t) && forall s <- env :: s.Work? && s.process in w.live ==> w.live[s.process].task != t
  }

  predicate Stays(r: Row, q: Row) { q == r.(owner := q.owner) }

  // ---- files name a task once -----------------------------------------------------------------

  predicate OnePerTask(records: set<FileRecord>) { forall f, g :: f in records && g in records && f.task == g.task ==> f == g }

  predicate FileInv(w: World) {
    && (w.file.Some? ==> OnePerTask(w.file.value))
    && (w.sup.Confirming? || w.sup.Restoring? ==> OnePerTask(w.sup.records))
  }

  lemma SnapshotOnePerTask(active: map<TaskId, Entry>)
    ensures OnePerTask(Snapshot(active))
  {
  }

  lemma ServingFileInv(w: World, s: Step)
    requires FileInv(w) && w.sup.Serving? && !IsEnvironment(s)
    ensures FileInv(Apply(w, s))
  {
    if s.SaveState? { SnapshotOnePerTask(w.sup.active); } else { assert Apply(w, s).file == w.file || Apply(w, s).file == None; }
  }

  lemma OfflineFileInv(w: World, s: Step)
    requires FileInv(w) && !w.sup.Serving? && !IsEnvironment(s)
    ensures FileInv(Apply(w, s))
  {
  }

  lemma FileInvStep(w: World, s: Step)
    requires FileInv(w)
    ensures FileInv(Apply(w, s))
  {
    if IsEnvironment(s) { assert Apply(w, s).file == w.file && Apply(w, s).sup == w.sup; }
    else if w.sup.Serving? { ServingFileInv(w, s); }
    else { OfflineFileInv(w, s); }
  }

  // ---- where a run begins ------------------------------------------------------------------------

  ghost predicate AllInv(w: World) { ProcessInv(w) && Safety.RowsInv(w) && FileInv(w) }

  lemma {:induction false} AllInvHolds(w: World, steps: seq<Step>)
    requires AllInv(w)
    ensures AllInv(Run(w, steps))
    decreases |steps|
  {
    if steps != [] {
      StepKeeps(w, steps[0]);
      Safety.RowsInvStep(w, steps[0]);
      FileInvStep(w, steps[0]);
      AllInvHolds(Apply(w, steps[0]), steps[1..]);
    }
  }

  // ---- the environment leaves a task alone -------------------------------------------------------

  lemma SparedStep(w: World, s: Step, t: TaskId)
    requires IsEnvironment(s) && !(s.User? && s.task == t) && s != Delete(t) && t in w.rows && t < w.nextTask
    requires Unworked(w, t) || (s.Work? && s.process in w.live ==> w.live[s.process].task != t)
    ensures var v := Apply(w, s); t in v.rows && Stays(w.rows[t], v.rows[t]) && t < v.nextTask && (Unworked(w, t) ==> Unworked(v, t))
    ensures forall p <- Apply(w, s).live :: p in w.live && Apply(w, s).live[p] == w.live[p]
  {
  }

  lemma {:induction false} SparedRun(w: World, env: seq<Step>, t: TaskId)
    requires (forall s <- env :: IsEnvironment(s)) && Spares(env, t) && t in w.rows && t < w.nextTask
    requires Unworked(w, t) || LetsBe(env, w, t)
    ensures var v := Run(w, env); t in v.rows && Stays(w.rows[t], v.rows[t]) && (Unworked(w, t) ==> Unworked(v, t))
    decreases |env|
  {
    if env != [] {
      assert env[0] in env;
      SparedStep(w, env[0], t);
      SparedRun(Apply(w, env[0]), env[1..], t);
    }
  }

  // ---- a sweep over the processes that have exited --------------------------------------------------

  /** A task executes under the claim of a process that has exited. */
  predicate LostWorker(w: World, t: TaskId) {
    && w.sup.Serving? && t in w.sup.active && w.sup.active[t].process !in w.live
    && t in w.rows && Executing(w.rows[t]) && Owned(w.rows[t], w.sup.active[t].token)
  }

  /** How far a sweep that began in w0 is with task t. */
  predicate Reaped(w0: World, w: World, t: TaskId, done: bool, startupError: bool)
    requires w0.sup.Serving? && w.sup.Serving?
  {
    LostWorker(w0, t) ==>
      && t in w.rows
      && if done then t !in w.sup.active && Settled(w0.rows[t], w.rows[t], startupError)
         else t in w.sup.active && w.sup.active[t] == w0.sup.active[t] && Stays(w0.rows[t], w.rows[t])
  }

  predicate OnlyDied(w0: World, w: World) { forall p <- w.live :: p in w0.live }

  lemma OthersReaped(w0: World, w: World, env: seq<Step>, v: World, t: TaskId, done: bool, startupError: bool)
    requires AllInv(w) && w0.sup.Serving? && w.sup.Serving? && v.sup == w.sup && OnlyDied(w0, w)
    requires (forall s <- env :: IsEnvironment(s)) && Spares(env, t) && v == Run(w, env)
    requires Reaped(w0, w, t, done, startupError)
    ensures Reaped(w0, v, t, done, startupError)
  {
    if LostWorker(w0, t) {
      DeadIsUnworked(w, t);
      SparedRun(w, env, t);
    }
  }

  /** The reap of t itself. */
  lemma OneReaped(w0: World, w: World, t: TaskId, startupError: bool, env: seq<Step>, u: World, v: World)
    requires AllInv(w) && w0.sup.Serving? && OnlyDied(w0, w) && CanReap(w, t)
    requires (forall s <- env :: IsEnvironment(s)) && Spares(env, t)
    requires u == Apply(w, ReapRead(t, startupError)) && v == Run(u, env) && v.sup == u.sup
    requires Reaped(w0, w, t, false, startupError)
    ensures Apply(v, ReapWrite).sup.Serving? && Reaped(w0, Apply(v, ReapWrite), t, true, startupError)
  {
    if LostWorker(w0, t) {
      ReapReads(w, t, startupError);
      DeadIsUnworked(w, t);
      SparedRun(u, env, t);
      ReapRecoversFrom(w, t, startupError, env, u, v, Apply(v, ReapWrite));
    }
  }

  lemma ReapsOne(v: World, x: TaskId)
    requires v.sup.Serving? && v.sup.reaping.Some? && v.sup.reaping.value.0 == x
    ensures var z := Apply(v, ReapWrite);
      && z.sup.Serving? && z.rows.Keys == v.rows.Keys && (forall t <- v.rows :: t != x ==> z.rows[t] == v.rows[t])
      && (forall t :: t != x ==> (t in z.sup.active <==> t in v.sup.active) && (t in v.sup.active ==> z.sup.active[t] == v.sup.active[t]))
  {
  }

  /** The reap of another task. */
  lemma OtherReaped(w0: World, w: World, x: TaskId, error: bool, env: seq<Step>, u: World, v: World, t: TaskId, done: bool, startupError: bool)
    requires AllInv(u) && w0.sup.Serving? && OnlyDied(w0, w) && CanReap(w, x) && t != x
    requires (forall s <- env :: IsEnvironment(s)) && Spares(env, t)
    requires u == Apply(w, ReapRead(x, error)) && v == Run(u, env) && v.sup == u.sup
    requires Reaped(w0, w, t, done, startupError)
    ensures Apply(v, ReapWrite).sup.Serving? && Reaped(w0, Apply(v, ReapWrite), t, done, startupError)
  {
    OthersReaped(w0, u, env, v, t, done, startupError);
    ReapsOne(v, x);
  }

  lemma {:induction false} OutsideRun(w: World, env: seq<Step>)
    requires forall s <- env :: IsEnvironment(s)
    ensures Run(w, env).sup == w.sup && OnlyDied(w, Run(w, env))
    decreases |env|
  {
    if env != [] {
      assert env[0] in env;
      OutsideRun(Apply(w, env[0]), env[1..]);
    }
  }

  /** What a reap makes of the state, with the environment's turn inside it. */
  function AfterReap(w: World, x: TaskId, error: bool, env: seq<Step>): World {
    Apply(Run(Apply(w, ReapRead(x, error)), env), ReapWrite)
  }

  lemma ReapReaps(w0: World, w: World, x: TaskId, error: bool, env: seq<Step>, t: TaskId, done: bool, startupError: bool)
    requires AllInv(w) && w0.sup.Serving? && OnlyDied(w0, w) && CanReap(w, x) && (forall s <- env :: IsEnvironment(s)) && Spares(env, t)
    requires Reaped(w0, w, t, done, startupError) && (t == x ==> !done && error == startupError)
    ensures AfterReap(w, x, error, env).sup.Serving? && Reaped(w0, AfterReap(w, x, error, env), t, done || t == x, startupError)
  {
    var u := Apply(w, ReapRead(x, error));
    OutsideRun(u, env);
    if t == x {
      OneReaped(w0, w, t, startupError, env, u, Run(u, env));
    } else {
      AllInvHolds(w, [ReapRead(x, error)]);
      OtherReaped(w0, w, x, error, env, u, Run(u, env), t, done, startupError);
    }
  }

  /** One turn of the sweep's loop: the environment's, then x is reaped if its process has exited. */
  lemma TurnReaps(w0: World, w: World, env: seq<Step>, w1: World, x: TaskId, error: bool, env1: seq<Step>, z: World, t: TaskId, done: bool, startupError: bool)
    requires AllInv(w) && AllInv(w1) && w0.sup.Serving? && OnlyDied(w0, w) && OnlyDied(w0, w1) && (forall s <- env :: IsEnvironment(s))
    requires w.sup.Serving? && w1 == Run(w, env) && w1.sup == w.sup && Spares(env, t) && (forall s <- env1 :: IsEnvironment(s)) && Spares(env1, t)
    requires z.sup.Serving? && if CanReap(w1, x) then z == AfterReap(w1, x, error, env1) else z == w1
    requires x in w1.sup.active && !CanReap(w1, x) ==> w1.sup.active[x].process in w1.live
    requires x in w1.sup.active && Reaped(w0, w, t, done, startupError) && (t == x ==> !done && error == startupError)
    ensures Reaped(w0, z, t, done || t == x, startupError)
  {
    OthersReaped(w0, w, env, w1, t, done, startupError);
    if CanReap(w1, x) { ReapReaps(w0, w1, x, error, env1, t, done, startupError); }
  }

  /** The same of every task of the sweep, with x the i-th of them. */
  lemma TurnReapsAll(w0: World, w: World, w1: World, z: World, order: seq<TaskId>, i: nat, env: nat -> seq<Step>, startupError: TaskId -> bool)
    requires i < |order| && Distinct(order) && (forall n, s | s in env(n) :: IsEnvironment(s))
    requires AllInv(w) && AllInv(w1) && w0.sup.Serving? && OnlyDied(w0, w) && OnlyDied(w0, w1)
    requires w.sup.Serving? && w1 == Run(w, env(2 * i)) && w1.sup == w.sup
    requires z.sup.Serving? && if CanReap(w1, order[i]) then z == AfterReap(w1, order[i], startupError(order[i]), env(2 * i + 1)) else z == w1
    requires order[i] in w1.sup.active && (!CanReap(w1, order[i]) ==> w1.sup.active[order[i]].process in w1.live)
    requires forall k :: 0 <= k < |order| && SparedBy(env, order[k]) ==> Reaped(w0, w, order[k], k < i, startupError(order[k]))
    ensures forall k :: 0 <= k < |order| && SparedBy(env, order[k]) ==> Reaped(w0, z, order[k], k < i + 1, startupError(order[k]))
  {
    forall k | 0 <= k < |order| && SparedBy(env, order[k]) ensures Reaped(w0, z, order[k], k < i + 1, startupError(order[k])) {
      assert k == i <==> order[k] == order[i];
      TurnReaps(w0, w, env(2 * i), w1, order[i], startupError(order[i]), env(2 * i + 1), z, order[k], k < i, startupError(order[k]));
    }
  }

  // ---- a restart --------------------------------------------------------------------------------------

  /** A task executes under the claim of a process on file. */
  predicate LostRecord(w: World, f: FileRecord) {
    f.task in w.rows && Executing(w.rows[f.task]) && Owned(w.rows[f.task], f.token)
  }

  predicate Restored(w0: World, w: World, f: FileRecord, done: bool, startupError: bool) {
    LostRecord(w0, f) ==>
      f.task in w.rows && if done then Settled(w0.rows[f.task], w.rows[f.task], startupError) else Stays(w0.rows[f.task], w.rows[f.task])
  }

  lemma OthersRestored(w0: World, w: World, env: seq<Step>, v: World, f: FileRecord, done: bool, startupError: bool)
    requires AllInv(w) && (w.sup.Restoring? || LetsBe(env, w, f.task))
    requires (forall s <- env :: IsEnvironment(s)) && Spares(env, f.task) && v == Run(w, env)
    requires Restored(w0, w, f, done, startupError)
    ensures Restored(w0, v, f, done, startupError)
  {
    if LostRecord(w0, f) {
      assert w.sup.Restoring? ==> Unworked(w, f.task);
      SparedRun(w, env, f.task);
    }
  }

  lemma RestoreReads(w: World, f: FileRecord, error: bool)
    requires w.sup.Restoring? && w.sup.reading.None?
    ensures var u := Apply(w, RestoreRead(f, error));
      u.sup.Restoring? && u.rows == w.rows && (u.sup.reading.Some? ==> u.sup.reading.value.0 == f)
  {
  }

  lemma RestoreWritesOne(v: World, f: FileRecord)
    requires v.sup.Restoring? && (v.sup.reading.Some? ==> v.sup.reading.value.0 == f)
    ensures var z := Apply(v, RestoreWrite);
      z.rows.Keys == v.rows.Keys && forall t <- v.rows :: t != f.task || !Owned(v.rows[t], f.token) ==> z.rows[t] == v.rows[t]
  {
  }

  lemma OneRestored(w0: World, w: World, f: FileRecord, startupError: bool, env: seq<Step>, u: World, v: World)
    requires AllInv(w) && AllInv(u) && w.sup.Restoring? && w.sup.reading.None? && f in w.sup.records
    requires (forall s <- env :: IsEnvironment(s)) && Spares(env, f.task)
    requires u == Apply(w, RestoreRead(f, startupError)) && v == Run(u, env)
    requires Restored(w0, w, f, false, startupError)
    ensures Restored(w0, Apply(v, RestoreWrite), f, true, startupError)
  {
    if LostRecord(w0, f) {
      RestoreReads(w, f, startupError);
      OthersRestored(w0, u, env, v, f, false, startupError);
      RestartRecoversFrom(w, f, startupError, env, u, v);
    }
  }

  /** A record of another task, or one whose task was recovered before. */
  lemma OtherRestored(w0: World, w: World, x: FileRecord, error: bool, env: seq<Step>, u: World, v: World, f: FileRecord, done: bool, startupError: bool)
    requires AllInv(u) && w.sup.Restoring? && w.sup.reading.None? && (x.task != f.task || done)
    requires (forall s <- env :: IsEnvironment(s)) && Spares(env, f.task)
    requires u == Apply(w, RestoreRead(x, error)) && v == Run(u, env) && v.sup == u.sup
    requires Restored(w0, w, f, done, startupError)
    ensures Restored(w0, Apply(v, RestoreWrite), f, done, startupError)
  {
    RestoreReads(w, x, error);
    OthersRestored(w0, u, env, v, f, done, startupError);
    RestoreWritesOne(v, x);
  }

  function AfterRestore(w: World, x: FileRecord, error: bool, env: seq<Step>): World {
    Apply(Run(Apply(w, RestoreRead(x, error)), env), RestoreWrite)
  }

  lemma RestoreRestores(w0: World, w: World, x: FileRecord, error: bool, env: seq<Step>, f: FileRecord, done: bool, startupError: bool)
    requires AllInv(w) && w.sup.Restoring? && w.sup.reading.None? && x in w.sup.records && f in w.sup.records
    requires (forall s <- env :: IsEnvironment(s)) && Spares(env, f.task) && (f == x ==> error == startupError)
    requires Restored(w0, w, f, done, startupError)
    ensures Restored(w0, AfterRestore(w, x, error, env), f, done || f == x, startupError)
  {
    var u := Apply(w, RestoreRead(x, error));
    OutsideRun(u, env);
    AllInvHolds(w, [RestoreRead(x, error)]);
    if f == x && !done { OneRestored(w0, w, f, startupError, env, u, Run(u, env)); }
    else { OtherRestored(w0, w, x, error, env, u, Run(u, env), f, done, startupError); }
  }

  /** One turn of the restart's loop. */
  lemma TurnRestores(w0: World, w: World, env: seq<Step>, w1: World, x: FileRecord, error: bool, env1: seq<Step>, f: FileRecord, done: bool, startupError: bool)
    requires AllInv(w) && AllInv(w1) && w.sup.Restoring? && w.sup.reading.None? && w1.sup == w.sup && x in w.sup.records && f in w.sup.records
    requires (forall s <- env :: IsEnvironment(s)) && Spares(env, f.task) && (forall s <- env1 :: IsEnvironment(s)) && Spares(env1, f.task)
    requires w1 == Run(w, env) && (f == x ==> error == startupError) && Restored(w0, w, f, done, startupError)
    ensures Restored(w0, AfterRestore(w1, x, error, env1), f, done || f == x, startupError)
  {
    OthersRestored(w0, w, env, w1, f, done, startupError);
    RestoreRestores(w0, w1, x, error, env1, f, done, startupError);
  }

  /** From the crash to the wait for the processes on file. */
  lemma FirstRestores(w: World, env: seq<Step>, f: FileRecord, startupError: bool)
    requires AllInv(Apply(w, Restart)) && w.sup.Down? && (forall s <- env :: IsEnvironment(s)) && LetsBe(env, w, f.task)
    ensures Restored(w, Run(Apply(w, Restart), env), f, false, startupError)
  {
    var u := Apply(w, Restart);
    assert u.rows == w.rows && u.live == w.live;
    OthersRestored(w, u, env, Run(u, env), f, false, startupError);
  }

  // ---- a claim whose process cannot be started ------------------------------------------------------

  predicate HoldsClaim(w: World, c: Claimed) {
    c.task in w.rows && Executing(w.rows[c.task]) && Owned(w.rows[c.task], c.token)
  }

  lemma ClaimStays(w: World, env: seq<Step>, c: Claimed)
    requires AllInv(w) && w.sup.Serving? && c.task !in w.sup.active && HoldsClaim(w, c)
    requires (forall s <- env :: IsEnvironment(s)) && Spares(env, c.task)
    ensures HoldsClaim(Run(w, env), c) && Stays(w.rows[c.task], Run(w, env).rows[c.task])
  {
    DeadIsUnworked(w, c.task);
    SparedRun(w, env, c.task);
  }
}
