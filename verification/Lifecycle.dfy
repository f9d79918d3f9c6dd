/** The task protocol as a state machine: the tasks table, the supervisor with
    its in-memory `_active`, its state file, and the worker processes.  One Step
    is one database transaction, one guarded UPDATE, one file replacement, or
    one event of the operating system; a run is any sequence of steps, so users,
    workers and the supervisor interleave freely and anything may die anywhere. */
module Lifecycle {
  import opened Options
  import opened TaskRows
  import Act = CheckActivity

  type TaskId = nat

  /** PID and creation time together name a process; a PID alone is reused. */
  datatype ProcessId = ProcessId(pid: nat, created: nat)

  datatype Process = Process(task: TaskId, token: Act.Token, permitted: bool)

  /** One value of `_active`; `identity` is None until the creation time is read. */
  datatype Entry = Entry(token: Act.Token, process: ProcessId, identity: Option<nat>)

  datatype FileRecord = FileRecord(task: TaskId, token: Act.Token, pid: nat, created: Option<nat>)

  datatype Claimed = Claimed(task: TaskId, token: Act.Token)

  /** How far the start of one process has come. */
  datatype Launch = Idle | Spawned(task: TaskId) | Identified(task: TaskId) | Saved(task: TaskId)

  datatype Supervisor =
    | Down
    | Confirming(records: set<FileRecord>)
    | Restoring(records: set<FileRecord>, reading: Option<(FileRecord, Decision)>)
    | Serving(active: map<TaskId, Entry>, claimed: seq<Claimed>, launch: Launch, reaping: Option<(TaskId, Decision)>)

  datatype Limits = Limits(processes: nat, total: nat, user: nat)

  datatype World = World(
    rows: map<TaskId, Row>,
    nextTask: TaskId,
    nextToken: Act.Token,
    live: map<ProcessId, Process>,
    nextCreated: nat,
    sup: Supervisor,
    file: Option<set<FileRecord>>,
    now: int,
    limits: Limits)

  datatype Step =
    // users
    | Submit(owner: string, createdAt: int, media: bool, snapshot: seq<Act.Code>)
    | User(task: TaskId, userChange: UserChange)
    | Delete(task: TaskId)
    | MigrateOwner(from: string, to: string)
    | ChangeLimits(total: nat, user: nat)
    // workers and the operating system
    | Work(process: ProcessId, workerChange: WorkerChange)
    | Die(process: ProcessId)
    | Tick(elapsed: nat)
    // the supervisor
    | ClaimTasks(chosen: seq<TaskId>)
    | Spawn(pid: nat)
    | SpawnFails(found: Decision)
    | Identify
    | SaveState
    | Permit(delivered: bool)
    | Abandon(dropClaims: bool)
    | RenewLease(task: TaskId)
    | ReapRead(task: TaskId, startupError: bool)
    | ReapWrite
    | Crash
    | Restart
    | Confirm
    | RestoreRead(record: FileRecord, startupError: bool)
    | RestoreWrite
    | Resume
    | RemoveFile

  function ActiveTasks(w: World): set<TaskId> {
    if w.sup.Serving? then w.sup.active.Keys else {}
  }

  function Snapshot(active: map<TaskId, Entry>): set<FileRecord> {
    set t | t in active :: FileRecord(t, active[t].token, active[t].process.pid, active[t].identity)
  }

  // ---- what a claim may choose ------------------------------------------------

  /** Rows that take a place: executing, or still managed by the supervisor. */
  function Busy(rows: map<TaskId, Row>, managed: set<TaskId>): set<TaskId> {
    set t | t in rows && (Executing(rows[t]) || t in managed)
  }

  function BusyOf(rows: map<TaskId, Row>, managed: set<TaskId>, owner: string): set<TaskId> {
    set t | t in Busy(rows, managed) && rows[t].owner == owner
  }

  function ChosenOf(rows: map<TaskId, Row>, chosen: seq<TaskId>, owner: string): set<TaskId> {
    set t | t in chosen && t in rows && rows[t].owner == owner
  }

  predicate Distinct<T(==)>(s: seq<T>) { forall i, j :: 0 <= i < j < |s| ==> s[i] != s[j] }

  /** What the claim query guarantees of the tasks it selects (proved of the
      query itself in ClaimQuery). */
  predicate ValidClaim(rows: map<TaskId, Row>, managed: set<TaskId>, limits: Limits, room: int, chosen: seq<TaskId>) {
    && Distinct(chosen)
    && (forall t <- chosen :: t in rows && rows[t].status.Queued? && t !in managed)
    && (chosen != [] ==> |chosen| <= room && |chosen| + |Busy(rows, managed)| <= limits.total)
    && (forall t <- chosen ::
          |BusyOf(rows, managed, rows[t].owner)| + |ChosenOf(rows, chosen, rows[t].owner)| <= limits.user)
  }

  function IndexOf(s: seq<TaskId>, t: TaskId): (i: nat)
    requires t in s
    ensures i < |s| && s[i] == t
  {
    if s[0] == t then 0 else 1 + IndexOf(s[1..], t)
  }

  function SweepAll(w: World): map<TaskId, Row> {
    map t | t in w.rows :: Sweep(w.rows[t], w.now, t in ActiveTasks(w))
  }

  function TokenFor(w: World, chosen: seq<TaskId>, t: TaskId): Option<Act.Token> {
    if t in chosen then Some(w.nextToken + IndexOf(chosen, t)) else None
  }

  function ClaimRows(w: World, chosen: seq<TaskId>): map<TaskId, Row> {
    map t | t in w.rows :: SweepThenClaim(w.rows[t], w.now, t in ActiveTasks(w), TokenFor(w, chosen, t))
  }

  function ClaimList(chosen: seq<TaskId>, firstToken: Act.Token): (cs: seq<Claimed>)
    ensures |cs| == |chosen| && forall i :: 0 <= i < |cs| ==> cs[i] == Claimed(chosen[i], firstToken + i)
  {
    if chosen == [] then [] else [Claimed(chosen[0], firstToken)] + ClaimList(chosen[1..], firstToken + 1)
  }

  /** The claim transaction runs between launches and reaps of its own thread. */
  predicate CanClaim(w: World, chosen: seq<TaskId>) {
    && w.sup.Serving? && w.sup.claimed == [] && w.sup.launch.Idle? && w.sup.reaping.None?
    && ValidClaim(SweepAll(w), w.sup.active.Keys, w.limits, w.limits.processes - |w.sup.active|, chosen)
  }

  function AfterClaim(w: World, chosen: seq<TaskId>): World
    requires w.sup.Serving?
  {
    w.(rows := ClaimRows(w, chosen),
       nextToken := w.nextToken + |chosen|,
       sup := w.sup.(claimed := ClaimList(chosen, w.nextToken)))
  }

  /** Steps that are not the supervisor's. */
  predicate IsEnvironment(s: Step) {
    s.Submit? || s.User? || s.Delete? || s.MigrateOwner? || s.ChangeLimits? || s.Work? || s.Die? || s.Tick?
  }

  // ---- one step -----------------------------------------------------------------

  function Apply(w: World, s: Step): World {
    if IsEnvironment(s) then ApplyEnvironment(w, s)
    else if w.sup.Serving? then ApplyServing(w, s)
    else ApplyOffline(w, s)
  }

  function ApplyEnvironment(w: World, s: Step): World
    requires IsEnvironment(s)
  {
    match s
    case Submit(owner, createdAt, media, snapshot) =>
      w.(rows := w.rows[w.nextTask := Row(owner, createdAt, media, snapshot, Queued, false, None, None, None, None, None, None)],
         nextTask := w.nextTask + 1)
    case User(t, c) =>
      if t !in w.rows then w else w.(rows := w.rows[t := ApplyUser(w.rows[t], c)])
    case Delete(t) =>
      w.(rows := w.rows - {t})
    case MigrateOwner(from, to) =>
      w.(rows := map t | t in w.rows :: if w.rows[t].owner == from then w.rows[t].(owner := to) else w.rows[t])
    case ChangeLimits(total, user) =>
      w.(limits := w.limits.(total := if total <= w.limits.processes then total else w.limits.processes, user := user))
    case Work(p, c) =>
      if p !in w.live || !w.live[p].permitted || w.live[p].task !in w.rows then w
      else var t := w.live[p].task;
        w.(rows := w.rows[t := ApplyWorker(w.rows[t], w.live[p].token, c)])
    case Die(p) => w.(live := w.live - {p})
    case Tick(elapsed) => w.(now := w.now + elapsed)
  }

  function ApplyOffline(w: World, s: Step): World
    requires !w.sup.Serving?
  {
    match (s, w.sup)
    case (Restart, Down) =>
      w.(sup := if w.file.Some? then Confirming(w.file.value) else Serving(map[], [], Idle, None))
    case (Confirm, Confirming(records)) =>
      // every recorded process that still matches its creation time has exited
      if exists r <- records :: r.created.Some? && ProcessId(r.pid, r.created.value) in w.live then w
      else w.(sup := Restoring(records, None))
    case (RestoreRead(r, startupError), Restoring(records, None)) =>
      if r !in records || r.task !in w.rows then w
      else w.(sup := Restoring(records, Some((r, Decide(w.rows[r.task], r.token, startupError)))))
    case (RestoreWrite, Restoring(records, Some((r, d)))) =>
      w.(sup := Restoring(records, None),
         rows := if r.task in w.rows then w.rows[r.task := ApplyDecision(w.rows[r.task], r.token, d)] else w.rows)
    case (Resume, Restoring(records, None)) =>
      w.(sup := Serving(map[], [], Idle, None), file := Some({}))
    case (Crash, _) => w.(sup := Down)
    case _ => w
  }

  function ApplyServing(w: World, s: Step): World
    requires w.sup.Serving?
  {
    var u := w.sup;
    match s
    case ClaimTasks(chosen) =>
      if CanClaim(w, chosen) then AfterClaim(w, chosen) else w
    case Spawn(pid) =>
      if u.claimed == [] || !u.launch.Idle? || u.reaping.Some? || (exists p <- w.live :: p.pid == pid) then w
      else if u.claimed[0].task in u.active then w.(sup := u.(claimed := u.claimed[1..]))
      else
        var c := u.claimed[0];
        var p := ProcessId(pid, w.nextCreated);
        w.(live := w.live[p := Process(c.task, c.token, false)],
           nextCreated := w.nextCreated + 1,
           sup := u.(active := u.active[c.task := Entry(c.token, p, None)], claimed := u.claimed[1..], launch := Spawned(c.task)))
    case SpawnFails(d) =>
      // no process exists: the claim is given back at once
      if u.claimed != [] && u.launch.Idle? && u.reaping.None? then
        var c := u.claimed[0];
        w.(sup := u.(claimed := u.claimed[1..]),
           rows := if c.task in w.rows then w.rows[c.task := ApplyDecision(w.rows[c.task], c.token, d)] else w.rows)
      else w
    case Identify =>
      if u.launch.Spawned? && u.launch.task in u.active then
        var e := u.active[u.launch.task];
        w.(sup := u.(active := u.active[u.launch.task := e.(identity := Some(e.process.created))], launch := Identified(u.launch.task)))
      else w
    case SaveState =>
      w.(file := Some(Snapshot(u.active)),
         sup := if u.launch.Identified? then u.(launch := Saved(u.launch.task)) else u)
    case Permit(delivered) =>
      if u.launch.Saved? then
        var w1 := w.(sup := u.(launch := Idle));
        if u.launch.task in u.active && u.active[u.launch.task].process in w.live && delivered then
          var p := u.active[u.launch.task].process;
          w1.(live := w.live[p := w.live[p].(permitted := true)])
        else w1
      else w
    case Abandon(dropClaims) =>
      // a failed launch or reap keeps its entry; an escaping error also drops the remaining claims
      w.(sup := u.(launch := Idle, reaping := None, claimed := if dropClaims then [] else u.claimed))
    case RenewLease(t) =>
      if t in u.active && t in w.rows
      then w.(rows := w.rows[t := Renew(w.rows[t], u.active[t].token, w.now + LEASE_SECONDS)]) else w
    case ReapRead(t, startupError) =>
      if u.launch.Idle? && u.claimed == [] && u.reaping.None? && t in u.active && u.active[t].process !in w.live then
        w.(sup := u.(reaping := Some((t, if t in w.rows then Decide(w.rows[t], u.active[t].token, startupError) else Leave))))
      else w
    case ReapWrite =>
      if u.reaping.Some? && u.reaping.value.0 in u.active then
        var t := u.reaping.value.0;
        w.(sup := u.(reaping := None, active := u.active - {t}),
           rows := if t in w.rows then w.rows[t := ApplyDecision(w.rows[t], u.active[t].token, u.reaping.value.1)] else w.rows)
      else w
    case RemoveFile => if u.active == map[] && u.launch.Idle? then w.(file := None) else w
    case Crash => w.(sup := Down)
    case _ => w
  }

  function Run(w: World, steps: seq<Step>): World
    decreases |steps|
  {
    if steps == [] then w else Run(Apply(w, steps[0]), steps[1..])
  }

  function Init(limits: Limits, now: int): World {
    World(map[], 1, 0, map[], 0, Down, None, now, limits.(total := if limits.total <= limits.processes then limits.total else limits.processes))
  }
}
