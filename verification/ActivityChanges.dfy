/** The `change` closures of app/tasks/activity.py as they run: each works on
    the loaded state in place, and does what CheckActivity says. */
module ActivityChanges {
  import opened Options
  import opened Collections
  import opened CheckActivity

  /** The executions a list of checks asks for; the first entry of a code counts. */
  function Wanted(checks: seq<(Code, nat)>): map<Code, nat> {
    if checks == [] then map[]
    else
      var before := Wanted(checks[..|checks| - 1]);
      var (code, execution) := checks[|checks| - 1];
      if code in before then before else before[code := execution]
  }

  /** Of several entries for a code, the first counts. */
  lemma {:induction false} FirstEntryCounts(items: seq<(Code, nat)>, i: nat)
    requires i < |items| && forall j :: 0 <= j < i ==> items[j].0 != items[i].0
    ensures items[i].0 in Wanted(items) && Wanted(items)[items[i].0] == items[i].1
  {
    var n := |items| - 1;
    if i < n { FirstEntryCounts(items[..n], i); } else { OnlyListed(items[..n], items[i].0); }
  }

  lemma {:induction false} OnlyListed(items: seq<(Code, nat)>, code: Code)
    ensures code in Wanted(items) <==> exists j :: 0 <= j < |items| && items[j].0 == code
  {
    if items != [] {
      var n := |items| - 1;
      OnlyListed(items[..n], code);
      if code in Wanted(items[..n]) {
        var j :| 0 <= j < n && items[..n][j].0 == code;
        assert items[j].0 == code;
      } else if items[n].0 != code {
        forall j | 0 <= j < |items| ensures items[j].0 != code {
          if j < n { assert items[..n][j] == items[j]; }
        }
      }
    }
  }

  class ActivityState {
    var token: Option<Token>
    var phase: Option<TaskPhase>
    var checks: map<Code, Check>

    ghost function Contents(): Record
      reads this
    {
      Record(token, phase, checks)
    }

    /** load_activity */
    constructor (stored: Option<Record>, claim: Option<Token>)
      ensures Contents() == Load(stored, claim)
    {
      if stored.Some? && stored.value.token == claim {
        token, phase, checks := claim, stored.value.phase, stored.value.checks;
      } else {
        token, phase, checks := claim, None, map[];
      }
    }

    method Initialize(newPhase: TaskPhase, items: seq<(Code, nat)>)
      modifies this
      ensures Contents() == CheckActivity.Initialize(old(Contents()), newPhase, Wanted(items))
      ensures phase == Some(newPhase) && forall c <- old(checks) :: c in checks && checks[c] == old(checks)[c]
      ensures forall c :: c in checks && c !in old(checks) ==> c in Wanted(items) && checks[c] == Check(Pending, Wanted(items)[c], false, false)
    {
      phase := Some(newPhase);
      ghost var before := checks;
      var i := 0;
      while i < |items|
        invariant 0 <= i <= |items| && token == old(token) && phase == Some(newPhase)
        invariant checks == (map c | c in Wanted(items[..i]) :: Fresh(Wanted(items[..i])[c])) + before
      {
        assert items[..i + 1][..i] == items[..i];
        var (code, execution) := items[i];
        if code !in checks { checks := checks[code := Fresh(execution)]; }
        i := i + 1;
      }
      assert items[..i] == items;
    }

    method UpdateChecks(codes: seq<Code>, work: WorkPhase)
      modifies this
      ensures Contents() == UpdatePhase(old(Contents()), Members(codes), work)
      ensures checks.Keys == old(checks).Keys && forall c <- checks ::
        if c in codes && !Terminal(old(checks)[c].phase) && !old(checks)[c].cancelRequested
        then checks[c] == old(checks)[c].(phase := work) else checks[c] == old(checks)[c]
    {
      ghost var r := Contents();
      UpdateNone(r, work);
      var i := 0;
      while i < |codes|
        invariant 0 <= i <= |codes| && Contents() == UpdatePhase(r, Members(codes[..i]), work)
      {
        UpdateOne(r, codes, i, work);
        UpdateCheck(codes[i], work);
        i := i + 1;
      }
      assert codes[..i] == codes;
    }

    method UpdateCheck(code: Code, work: WorkPhase)
      modifies this
      ensures Contents() == old(Contents()).(checks := Working(old(checks), code, work))
    {
      if code in checks && !Terminal(checks[code].phase) && !checks[code].cancelRequested {
        checks := checks[code := checks[code].(phase := work)];
      }
    }

    method FinishCheck(code: Code, failed: bool) returns (canceled: bool)
      modifies this
      ensures (Contents(), canceled) == Finish(old(Contents()), code, failed)
      ensures forall c :: c in checks <==> c in old(checks)
      ensures forall c <- checks :: c != code ==> checks[c] == old(checks)[c]
      ensures canceled <==> code in checks && checks[code].cancelRequested
      ensures code in checks ==> checks[code].execution == old(checks)[code].execution
      ensures code in checks ==> checks[code].phase == if old(checks)[code].cancelRequested then Canceled else if failed then Failed else Completed
    {
      if code !in checks { return false; }
      var item := checks[code];
      canceled := item.cancelRequested;
      checks := checks[code := item.(phase := if canceled then Canceled else if failed then Failed else Completed)];
    }

    method StartCheck(code: Code) returns (started: bool)
      modifies this
      ensures (Contents(), started) == Start(old(Contents()), code)
      ensures started <==> code in old(checks) && !old(checks)[code].cancelRequested && !Terminal(old(checks)[code].phase)
      ensures !started ==> checks == old(checks)
      ensures started ==> code in checks && checks[code].phase.Checking? && !checks[code].cancelRequested
      ensures forall c <- old(checks) :: c in checks && (c != code ==> checks[c] == old(checks)[c])
    {
      if code !in checks || checks[code].cancelRequested || Terminal(checks[code].phase) { return false; }
      checks := checks[code := checks[code].(phase := Checking)];
      started := true;
    }

    method RequestCancellation(code: Code, execution: Option<nat>, selected: set<Code>) returns (shown: Option<CheckPhase>)
      modifies this
      ensures (Contents(), shown) == RequestCancel(old(Contents()), code, execution, selected)
      ensures shown.None? ==> checks == old(checks)
      ensures shown.Some? && !(code in old(checks) && old(checks)[code].retryRequested) ==>
        checks[code].cancelRequested && shown.value == if code !in old(checks) || old(checks)[code].phase.Pending? then Canceled else Canceling
      ensures shown.Some? && code in old(checks) && old(checks)[code].retryRequested ==> checks[code] == old(checks)[code].(retryRequested := false)
      ensures shown.Some? ==> code in checks && checks[code].phase == shown.value && (code in old(checks) || code in selected)
      ensures forall c <- old(checks) :: c in checks && (c != code ==> checks[c] == old(checks)[c])
    {
      shown := None;
      var known := code in checks;
      if execution.Some? && execution.value != (if known then checks[code].execution else 0) { return; }
      if known && checks[code].retryRequested {
        checks := checks[code := checks[code].(retryRequested := false)];
        return Some(checks[code].phase);
      }
      var item := Fresh(0);
      if known { item := checks[code]; } else if code !in selected { return; }
      if !Cancelable(item.phase) && !item.phase.Canceling? { return; }
      var next := if item.phase.Pending? then Canceled else Canceling;
      checks := checks[code := item.(phase := next, cancelRequested := true)];
      shown := Some(next);
    }

    /** Takes the retries that can start, one item after the other. */
    method TakeRetries(busy: set<Code>) returns (ready: map<Code, nat>)
      modifies this
      ensures (Contents(), ready) == CheckActivity.TakeRetries(old(Contents()), busy)
      ensures forall c :: c in ready <==> c in old(checks) && old(checks)[c].retryRequested && c !in busy
      ensures checks.Keys == old(checks).Keys && forall c <- checks ::
        if c in ready then ready[c] == old(checks)[c].execution + 1 && checks[c] == Check(Pending, ready[c], false, false)
        else checks[c] == old(checks)[c]
      ensures phase == if busy == {} && ready == map[] then Some(Finalizing) else old(phase)
    {
      ghost var before := checks;
      var left := checks.Keys;
      ready := map[];
      while left != {}
        invariant left <= before.Keys && checks.Keys == before.Keys && token == old(token) && phase == old(phase)
        invariant forall c :: c in ready <==> c in before && c !in left && c !in busy && before[c].retryRequested
        invariant forall c :: c in ready ==> ready[c] == before[c].execution + 1
        invariant forall c :: c in checks ==> checks[c] == if c in ready then Fresh(ready[c]) else before[c]
        decreases |left|
      {
        var code :| code in left;
        left := left - {code};
        var item := checks[code];
        if code !in busy && item.retryRequested {
          checks := checks[code := Fresh(item.execution + 1)];
          ready := ready[code := item.execution + 1];
        }
      }
      ghost var r := old(Contents());
      assert ready == ReadyRetries(r, busy);
      assert checks == map c | c in r.checks :: if c in ready then Fresh(ready[c]) else r.checks[c];
      if busy == {} && ready == map[] { phase := Some(Finalizing); }
    }
  }

  /** A check that still works shows its new phase. */
  function Working(checks: map<Code, Check>, code: Code, work: WorkPhase): map<Code, Check> {
    if code in checks && !Terminal(checks[code].phase) && !checks[code].cancelRequested
    then checks[code := checks[code].(phase := work)] else checks
  }

  lemma UpdateNone(r: Record, work: WorkPhase)
    ensures UpdatePhase(r, {}, work) == r
  {
    assert UpdatePhase(r, {}, work).checks == r.checks;
  }

  lemma UpdateMore(r: Record, before: set<Code>, after: set<Code>, code: Code, work: WorkPhase)
    requires after == before + {code}
    ensures UpdatePhase(r, after, work).checks == Working(UpdatePhase(r, before, work).checks, code, work)
  {
    var a, b := UpdatePhase(r, after, work).checks, Working(UpdatePhase(r, before, work).checks, code, work);
    assert a.Keys == r.checks.Keys == b.Keys;
    forall c | c in r.checks ensures a[c] == b[c] {}
  }

  lemma UpdateOne(r: Record, codes: seq<Code>, i: nat, work: WorkPhase)
    requires i < |codes|
    ensures var before := UpdatePhase(r, Members(codes[..i]), work).checks;
      UpdatePhase(r, Members(codes[..i + 1]), work).checks == Working(before, codes[i], work)
  {
    assert codes[..i + 1] == codes[..i] + [codes[i]];
    UpdateMore(r, Members(codes[..i]), Members(codes[..i + 1]), codes[i], work);
  }
}
