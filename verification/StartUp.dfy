/** A run of the protocol in which a submitted task is claimed and its worker
    gets permission: what is proved of every run is not proved of none. */
module StartUp {
  import opened Options
  import opened TaskRows
  import opened Lifecycle

  const LIMITS: Limits := Limits(1, 1, 1)

  function Serving0(): World { Init(LIMITS, 0).(sup := Serving(map[], [], Idle, None)) }

  function Submitted(): Row { Row("ann", 0, false, ["spelling"], Queued, false, None, None, None, None, None, None) }

  function Waiting(): World { Serving0().(rows := map[1 := Submitted()], nextTask := 2) }

  lemma Submits()
    ensures Apply(Init(LIMITS, 0), Restart) == Serving0()
    ensures Apply(Serving0(), Submit("ann", 0, false, ["spelling"])) == Waiting()
  {
    assert map[][1 := Submitted()] == map[1 := Submitted()];
  }

  lemma MayClaim()
    ensures CanClaim(Waiting(), [1])
  {
    var w := Waiting();
    var swept := SweepAll(w);
    assert swept == map[1 := Submitted()];
    assert Busy(swept, {}) == {} && BusyOf(swept, {}, "ann") == {};
    assert ChosenOf(swept, [1], "ann") == {1};
  }

  function Claimed1(): World {
    Waiting().(rows := map[1 := Claim(Submitted(), 0, LEASE_SECONDS)], nextToken := 1, sup := Serving(map[], [Claimed(1, 0)], Idle, None))
  }

  lemma Claims()
    ensures Apply(Waiting(), ClaimTasks([1])) == Claimed1()
  {
    MayClaim();
    assert ClaimRows(Waiting(), [1]) == Claimed1().rows;
    assert ClaimList([1], 0) == [Claimed(1, 0)];
  }

  function Spawned7(): World {
    var p := ProcessId(7, 0);
    Claimed1().(live := map[p := Process(1, 0, false)], nextCreated := 1, sup := Serving(map[1 := Entry(0, p, None)], [], Spawned(1), None))
  }

  lemma Spawns()
    ensures Apply(Claimed1(), Spawn(7)) == Spawned7()
  {
    var v := Apply(Claimed1(), Spawn(7));
    assert v.live == Spawned7().live && v.sup.active == Spawned7().sup.active && v.sup.claimed == [];
  }

  function Known(): Entry { Entry(0, ProcessId(7, 0), Some(0)) }

  function OnFile(): World {
    Spawned7().(sup := Serving(map[1 := Known()], [], Saved(1), None), file := Some({FileRecord(1, 0, 7, Some(0))}))
  }

  lemma GoesOnFile()
    ensures Apply(Apply(Spawned7(), Identify), SaveState) == OnFile()
  {
    var v := Apply(Spawned7(), Identify);
    assert v.sup.active == map[1 := Known()];
    assert Snapshot(map[1 := Known()]) == {FileRecord(1, 0, 7, Some(0))};
  }

  lemma GetsPermission()
    ensures var w := Apply(OnFile(), Permit(true)); w.live == map[ProcessId(7, 0) := Process(1, 0, true)] && w.rows == OnFile().rows
  {
    assert Apply(OnFile(), Permit(true)).live == map[ProcessId(7, 0) := Process(1, 0, true)];
  }

  /** Seven steps lead from nothing to a permitted worker of a running task. */
  lemma AWorkerStarts()
    ensures var w := Apply(Apply(Apply(Apply(Apply(Apply(Apply(Init(LIMITS, 0), Restart), Submit("ann", 0, false, ["spelling"])),
                ClaimTasks([1])), Spawn(7)), Identify), SaveState), Permit(true));
      && 1 in w.rows && w.rows[1].status.Running? && w.rows[1].token == Some(0)
      && w.live == map[ProcessId(7, 0) := Process(1, 0, true)]
  {
    Submits();
    Claims();
    Spawns();
    GoesOnFile();
    GetsPermission();
  }
}
