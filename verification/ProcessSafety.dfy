/** Safety of the worker processes over whole runs: at most one permitted live
    process per task, across supervisor crashes and restarts at any point. */
module ProcessSafety {
  import opened Options
  import opened TaskRows
  import opened Lifecycle
  import Act = CheckActivity

  ghost predicate Exclusive(w: World) {
    forall p, q :: p in w.live && q in w.live && w.live[p].permitted && w.live[q].permitted && w.live[p].task == w.live[q].task
      ==> p == q
  }

  predicate IsRecorded(w: World, p: ProcessId)
    requires p in w.live
  {
    w.file.Some? && FileRecord(w.live[p].task, w.live[p].token, p.pid, Some(p.created)) in w.file.value
  }

  ghost predicate Recorded(w: World) {
    forall p :: p in w.live && w.live[p].permitted ==> IsRecorded(w, p)
  }

  ghost predicate NonePermitted(w: World) { forall p :: p in w.live ==> !w.live[p].permitted }

  predicate EntryOk(w: World, t: TaskId, e: Entry) {
    && e.process.created < w.nextCreated
    && (e.process in w.live ==> w.live[e.process].task == t && w.live[e.process].token == e.token)
    && (e.identity.Some? ==> e.identity.value == e.process.created)
  }

  predicate IsManaged(w: World, p: ProcessId)
    requires p in w.live && w.sup.Serving?
  {
    var t := w.live[p].task;
    t in w.sup.active && w.sup.active[t].process == p && w.sup.active[t].identity.Some?
  }

  ghost predicate ServingOk(w: World)
    requires w.sup.Serving?
  {
    var u := w.sup;
    && (forall t :: t in u.active ==> EntryOk(w, t, u.active[t]))
    && (forall p :: p in w.live && w.live[p].permitted ==> IsManaged(w, p))
    && (u.launch.Identified? || u.launch.Saved? ==> u.launch.task in u.active && u.active[u.launch.task].identity.Some?)
    && (u.launch.Saved? ==>
          var e := u.active[u.launch.task];
          w.file.Some? && FileRecord(u.launch.task, e.token, e.process.pid, e.identity) in w.file.value)
    && (u.reaping.Some? ==> u.launch.Idle? && u.reaping.value.0 in u.active && u.active[u.reaping.value.0].process !in w.live)
  }

  ghost predicate ProcessInv(w: World) {
    && (forall p :: p in w.live ==> p.created < w.nextCreated)
    && Exclusive(w)
    && Recorded(w)
    && (w.sup.Serving? ==> ServingOk(w))
    && (w.sup.Confirming? ==> w.file == Some(w.sup.records))
    && (w.sup.Restoring? ==> NonePermitted(w))
  }

  lemma PermitKeeps(w: World, delivered: bool)
    requires ProcessInv(w) && w.sup.Serving?
    ensures ProcessInv(Apply(w, Permit(delivered)))
  {
    var v := Apply(w, Permit(delivered));
    if w.sup.launch.Saved? && v.live != w.live {
      var t := w.sup.launch.task;
      var p := w.sup.active[t].process;
      assert EntryOk(w, t, w.sup.active[t]);
      forall q | q in v.live && v.live[q].permitted ensures IsRecorded(v, q) && IsManaged(v, q) {
        if q != p { assert IsRecorded(w, q) && IsManaged(w, q); }
      }
      assert forall x :: x in v.sup.active ==> EntryOk(w, x, w.sup.active[x]);
    }
  }

  lemma SpawnKeeps(w: World, pid: nat)
    requires ProcessInv(w) && w.sup.Serving?
    ensures ProcessInv(Apply(w, Spawn(pid)))
  {
    var v := Apply(w, Spawn(pid));
    forall q | q in v.live && v.live[q].permitted ensures IsRecorded(v, q) && IsManaged(v, q) {
      assert IsRecorded(w, q) && IsManaged(w, q);
    }
    forall x | x in v.sup.active ensures EntryOk(v, x, v.sup.active[x]) {
      if x in w.sup.active && w.sup.active[x] == v.sup.active[x] { assert EntryOk(w, x, w.sup.active[x]); }
    }
  }

  lemma SaveKeeps(w: World)
    requires ProcessInv(w) && w.sup.Serving?
    ensures ProcessInv(Apply(w, SaveState))
  {
    var v := Apply(w, SaveState);
    forall q | q in v.live && v.live[q].permitted ensures IsRecorded(v, q) && IsManaged(v, q) {
      assert IsManaged(w, q);
      var e := w.sup.active[w.live[q].task];
      assert EntryOk(w, w.live[q].task, e);
      assert FileRecord(w.live[q].task, e.token, e.process.pid, e.identity) in Snapshot(w.sup.active);
    }
    forall x | x in v.sup.active ensures EntryOk(v, x, v.sup.active[x]) { assert EntryOk(w, x, w.sup.active[x]); }
  }

  lemma ReapKeeps(w: World, s: Step)
    requires ProcessInv(w) && w.sup.Serving? && (s.ReapRead? || s.ReapWrite?)
    ensures ProcessInv(Apply(w, s))
  {
    var v := Apply(w, s);
    forall q | q in v.live && v.live[q].permitted ensures IsRecorded(v, q) && IsManaged(v, q) {
      assert IsRecorded(w, q) && IsManaged(w, q);
    }
    forall x | x in v.sup.active ensures EntryOk(v, x, v.sup.active[x]) { assert EntryOk(w, x, w.sup.active[x]); }
  }

  lemma ConfirmKeeps(w: World)
    requires ProcessInv(w) && w.sup.Confirming?
    ensures ProcessInv(Apply(w, Confirm))
  {
    assert forall p :: p in w.live && w.live[p].permitted ==> IsRecorded(w, p);
    assert forall p :: p in w.live && w.live[p].permitted ==>
      FileRecord(w.live[p].task, w.live[p].token, p.pid, Some(p.created)) in w.sup.records;
    assert forall p: ProcessId :: ProcessId(p.pid, p.created) == p;
    forall q | q in w.live && w.live[q].permitted ensures IsRecorded(Apply(w, Confirm), q) { assert IsRecorded(w, q); }
  }

  lemma DieKeeps(w: World, d: ProcessId)
    requires ProcessInv(w)
    ensures ProcessInv(Apply(w, Die(d)))
  {
    var v := Apply(w, Die(d));
    forall q | q in v.live && v.live[q].permitted ensures IsRecorded(v, q) && (v.sup.Serving? ==> IsManaged(v, q)) {
      assert IsRecorded(w, q);
      if w.sup.Serving? { assert IsManaged(w, q); }
    }
    if v.sup.Serving? {
      forall x | x in v.sup.active ensures EntryOk(v, x, v.sup.active[x]) { assert EntryOk(w, x, w.sup.active[x]); }
    }
  }

  /** Only the listed parts matter here, so steps on rows change nothing. */
  lemma SameProcesses(w: World, v: World)
    requires ProcessInv(w) && v.live == w.live && v.nextCreated == w.nextCreated && v.sup == w.sup && v.file == w.file
    ensures ProcessInv(v)
  {
    forall q | q in v.live && v.live[q].permitted ensures IsRecorded(v, q) && (v.sup.Serving? ==> IsManaged(v, q)) {
      assert IsRecorded(w, q);
      if w.sup.Serving? { assert IsManaged(w, q); }
    }
    if v.sup.Serving? {
      forall x | x in v.sup.active ensures EntryOk(v, x, v.sup.active[x]) { assert EntryOk(w, x, w.sup.active[x]); }
    }
  }

  /** Processes, entries and file are as they were; a launch or reap may be given up. */
  predicate KeepsEntries(w: World, v: World) {
    && v.live == w.live && v.file == w.file && v.nextCreated == w.nextCreated && w.sup.Serving? && v.sup.Serving?
    && v.sup.active == w.sup.active && (v.sup.launch == w.sup.launch || v.sup.launch.Idle?)
    && (v.sup.reaping == w.sup.reaping || v.sup.reaping.None?)
  }

  lemma SameEntries(w: World, v: World)
    requires ProcessInv(w) && KeepsEntries(w, v)
    ensures ProcessInv(v)
  {
    forall q | q in v.live && v.live[q].permitted ensures IsRecorded(v, q) && IsManaged(v, q) {
      assert IsRecorded(w, q) && IsManaged(w, q);
    }
    forall x | x in v.sup.active ensures EntryOk(v, x, v.sup.active[x]) { assert EntryOk(w, x, w.sup.active[x]); }
  }

  /** Steps of a serving supervisor that leave processes and file alone. */
  lemma BookkeepingKeeps(w: World, s: Step)
    requires ProcessInv(w) && w.sup.Serving?
    requires s.ClaimTasks? || s.SpawnFails? || s.Abandon? || s.RenewLease?
    ensures ProcessInv(Apply(w, s))
  {
    assert KeepsEntries(w, Apply(w, s));
    SameEntries(w, Apply(w, s));
  }

  lemma IdentifyKeeps(w: World)
    requires ProcessInv(w) && w.sup.Serving?
    ensures ProcessInv(Apply(w, Identify))
  {
    var v := Apply(w, Identify);
    forall q | q in v.live && v.live[q].permitted ensures IsRecorded(v, q) && IsManaged(v, q) {
      assert IsRecorded(w, q) && IsManaged(w, q);
    }
    forall x | x in v.sup.active ensures EntryOk(v, x, v.sup.active[x]) { assert EntryOk(w, x, w.sup.active[x]); }
  }

  lemma RemoveKeeps(w: World)
    requires ProcessInv(w) && w.sup.Serving?
    ensures ProcessInv(Apply(w, RemoveFile))
  {
    var v := Apply(w, RemoveFile);
    forall q | q in v.live && v.live[q].permitted ensures IsRecorded(v, q) && IsManaged(v, q) {
      assert IsRecorded(w, q) && IsManaged(w, q);
    }
    forall x | x in v.sup.active ensures EntryOk(v, x, v.sup.active[x]) { assert EntryOk(w, x, w.sup.active[x]); }
  }

  lemma ServingKeeps(w: World, s: Step)
    requires ProcessInv(w) && w.sup.Serving? && !IsEnvironment(s)
    ensures ProcessInv(Apply(w, s))
  {
    match s
    case Permit(delivered) => PermitKeeps(w, delivered);
    case Spawn(pid) => SpawnKeeps(w, pid);
    case SaveState => SaveKeeps(w);
    case ReapRead(_, _) => ReapKeeps(w, s);
    case ReapWrite => ReapKeeps(w, s);
    case RemoveFile => RemoveKeeps(w);
    case Crash => CrashKeeps(w);
    case ClaimTasks(_) => BookkeepingKeeps(w, s);
    case SpawnFails(_) => BookkeepingKeeps(w, s);
    case Identify => IdentifyKeeps(w);
    case Abandon(_) => BookkeepingKeeps(w, s);
    case RenewLease(_) => BookkeepingKeeps(w, s);
    case _ =>
  }

  lemma CrashKeeps(w: World)
    requires ProcessInv(w)
    ensures ProcessInv(w.(sup := Down))
  {
    forall q | q in w.live && w.live[q].permitted ensures IsRecorded(w.(sup := Down), q) { assert IsRecorded(w, q); }
  }

  lemma RestartKeeps(w: World)
    requires ProcessInv(w) && w.sup.Down?
    ensures ProcessInv(Apply(w, Restart))
  {
    var v := Apply(w, Restart);
    assert forall p :: p in w.live && w.live[p].permitted ==> IsRecorded(w, p);
    assert forall p :: p in w.live && w.live[p].permitted ==> w.file.Some?;
    assert w.file.None? ==> NonePermitted(w);
    forall q | q in v.live && v.live[q].permitted ensures IsRecorded(v, q) { assert IsRecorded(w, q); }
  }

  lemma OfflineKeeps(w: World, s: Step)
    requires ProcessInv(w) && !w.sup.Serving? && !IsEnvironment(s)
    ensures ProcessInv(Apply(w, s))
  {
    var v := Apply(w, s);
    if s.Confirm? && w.sup.Confirming? {
      ConfirmKeeps(w);
    } else if s.Restart? && w.sup.Down? {
      RestartKeeps(w);
    } else {
      forall q | q in v.live && v.live[q].permitted ensures IsRecorded(v, q) { assert IsRecorded(w, q); }
    }
  }

  lemma StepKeeps(w: World, s: Step)
    requires ProcessInv(w)
    ensures ProcessInv(Apply(w, s))
  {
    if s.Die? {
      DieKeeps(w, s.process);
    } else if IsEnvironment(s) {
      SameProcesses(w, Apply(w, s));
    } else if w.sup.Serving? {
      ServingKeeps(w, s);
    } else {
      OfflineKeeps(w, s);
    }
  }

  lemma {:induction false} ProcessInvHolds(w: World, steps: seq<Step>)
    requires ProcessInv(w)
    ensures ProcessInv(Run(w, steps))
    decreases |steps|
  {
    if steps != [] {
      StepKeeps(w, steps[0]);
      ProcessInvHolds(Apply(w, steps[0]), steps[1..]);
    }
  }

  /** In every run two live permitted processes of one task are the same
      process, and each live permitted process is in the state file with its
      creation time, so the next supervisor will find it. */
  lemma OneWorkerPerTask(limits: Limits, now: int, steps: seq<Step>)
    ensures Exclusive(Run(Init(limits, now), steps))
    ensures Recorded(Run(Init(limits, now), steps))
  {
    ProcessInvHolds(Init(limits, now), steps);
  }
}
