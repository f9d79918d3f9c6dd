/** Every interleaving of calls to the identity cache: calls take their lock
    sections one at a time, and anything may happen between them. */
module IdentitySafety {
  import opened Options
  import opened IdentityCache

  /** A call to `resolve_userinfo` that has begun. A fetching call is known by
      the number of the flight it owns; `floor` is the last revocation of its
      key when it began. `late` marks a call that joined a flight which had
      answered and was not closed yet. */
  datatype Call =
    | Fetching(key: string, cached: Option<Entry>, floor: nat)
    | Closing(key: string)
    | Waiting(key: string, flight: nat, floor: nat, began: real, late: bool)

  /** How a flight ended: when, and with which serial, it answered. */
  datatype Outcome = Answered(result: Result, at: real, serial: nat) | Raised

  /** `revoked` remembers when a key's session was last stored as expired;
      `serial` numbers the stored answers. */
  datatype World = World(
    shared: Shared, calls: map<nat, Call>, outcomes: map<nat, Outcome>, revoked: map<string, nat>,
    serial: nat, next: nat, now: real)

  datatype Step =
    | Arrive(key: string)
    | Answer(call: nat, fetched: Fetched, ttl: int, grace: int)
    | Fail(call: nat)
    | Close(call: nat)
    | Wake(call: nat)
    | Forget(key: string)
    | Tick(now: real)

  function Init(start: real): World {
    World(Shared([], map[], map[], 0.0), map[], map[], map[], 1, 0, start)
  }

  function Revoked(w: World, key: string): nat {
    if key in w.revoked then w.revoked[key] else 0
  }

  predicate IsFetching(w: World, call: nat) { call in w.calls && w.calls[call].Fetching? }

  function AnswerEntry(w: World, call: nat, fetched: Fetched, ttl: int, grace: int): Entry
    requires IsFetching(w, call)
  {
    EntryFor(w.calls[call].cached, fetched, w.serial, w.now, ttl, grace)
  }

  function DoArrive(w: World, key: string): World {
    var shared := Begin(w.shared, key, w.next, w.now);
    match ReplyTo(w.shared, key, w.now)
    case Hit(_) => w.(shared := shared, next := w.next + 1)
    case Join(flight) => w.(shared := shared, next := w.next + 1, calls := w.calls[w.next := Waiting(key, flight, Revoked(w, key), w.now, flight in w.outcomes)])
    case Own(cached) => w.(shared := shared, next := w.next + 1, calls := w.calls[w.next := Fetching(key, cached, Revoked(w, key))])
  }

  function DoAnswer(w: World, call: nat, fetched: Fetched, ttl: int, grace: int): World
    requires IsFetching(w, call)
  {
    var key := w.calls[call].key;
    var e := AnswerEntry(w, call, fetched, ttl, grace);
    w.(shared := Store(w.shared, key, call, e),
       calls := w.calls[call := Closing(key)],
       outcomes := w.outcomes[call := Answered(Result(e.user, e.error), w.now, w.serial)],
       revoked := if IsCurrent(w.shared, key, call) && fetched == Failure(Expired) then w.revoked[key := w.serial] else w.revoked,
       serial := w.serial + 1)
  }

  function Apply(w: World, s: Step): World {
    match s
    case Arrive(key) => DoArrive(w, key)
    case Answer(call, fetched, ttl, grace) => if IsFetching(w, call) then DoAnswer(w, call, fetched, ttl, grace) else w
    case Fail(call) =>
      if IsFetching(w, call) then w.(calls := w.calls[call := Closing(w.calls[call].key)], outcomes := w.outcomes[call := Raised]) else w
    case Close(call) =>
      if call in w.calls && w.calls[call].Closing? then w.(shared := Finish(w.shared, w.calls[call].key, call), calls := w.calls - {call}) else w
    case Wake(call) =>
      if call in w.calls && w.calls[call].Waiting? && w.calls[call].flight in w.outcomes then w.(calls := w.calls - {call}) else w
    case Forget(key) => w.(shared := Clear(w.shared, key))
    case Tick(now) => if now >= w.now then w.(now := now) else w
  }

  function Run(w: World, steps: seq<Step>): World {
    if steps == [] then w else Apply(Run(w, steps[..|steps| - 1]), steps[|steps| - 1])
  }

  // ---- what a step answers --------------------------------------------------------------------

  /** The call a step answers, and with what. */
  datatype Reported = Reported(call: nat, key: string, result: Result)

  function Report(w: World, s: Step): Option<Reported> {
    match s
    case Arrive(key) =>
      var reply := ReplyTo(w.shared, key, w.now);
      if reply.Hit? then Some(Reported(w.next, key, reply.result)) else None
    case Answer(call, fetched, ttl, grace) =>
      if IsFetching(w, call) then
        var e := AnswerEntry(w, call, fetched, ttl, grace);
        Some(Reported(call, w.calls[call].key, Result(e.user, e.error)))
      else None
    case Wake(call) =>
      if call in w.calls && w.calls[call].Waiting? && w.calls[call].flight in w.outcomes && w.outcomes[w.calls[call].flight].Answered?
      then Some(Reported(call, w.calls[call].key, w.outcomes[w.calls[call].flight].result)) else None
    case _ => None
  }

  /** Nothing a profile could be blamed for: none given, or one newer than the floor. */
  predicate Newer(user: Option<Profile>, floor: nat) { user.Some? ==> user.value.serial > floor }

  // ---- the invariant ---------------------------------------------------------------------------

  /** A profile in an entry may be used exactly until the entry is discarded. */
  predicate EntryOk(e: Entry, floor: nat, serial: nat) {
    e.user.Some? ==> e.discardAt == e.user.value.deadline && floor < e.user.value.serial < serial
  }

  ghost predicate EntriesOk(w: World) {
    forall k <- w.shared.entries :: EntryOk(w.shared.entries[k], Revoked(w, k), w.serial)
  }

  ghost predicate CallsOk(w: World) {
    forall c <- w.calls :: c < w.next && CallOk(w, c)
  }

  predicate CallOk(w: World, c: nat)
    requires c in w.calls
  {
    match w.calls[c]
    case Fetching(key, cached, floor) => c !in w.outcomes && floor < w.serial && (cached.Some? ==> EntryOk(cached.value, floor, w.serial))
    case Closing(_) => c in w.outcomes
    case Waiting(key, flight, floor, began, late) => flight < w.next && Carried(w, flight, floor) && began <= w.now && Timely(w, flight, began, late)
  }

  /** A flight will answer with nothing older than the floor. */
  predicate Carried(w: World, flight: nat, floor: nat) {
    if IsFetching(w, flight) then floor <= w.calls[flight].floor
    else flight in w.outcomes && (w.outcomes[flight].Answered? ==> Newer(w.outcomes[flight].result.user, floor))
  }

  /** A flight that had answered before the call began, and one that answers later. */
  predicate Timely(w: World, flight: nat, began: real, late: bool) {
    && (late ==> flight in w.outcomes)
    && (flight in w.outcomes && w.outcomes[flight].Answered? ==>
          if late then w.outcomes[flight].at <= began else began <= w.outcomes[flight].at)
  }

  /** An answer's profile was in time then, unless that very answer fetched it. */
  predicate AnswerOk(o: Outcome, now: real) {
    o.Answered? ==> o.at <= now && (o.result.user.Some? ==> o.at < o.result.user.value.deadline || o.result.user.value.serial == o.serial)
  }

  ghost predicate FlightsOk(w: World) {
    forall k <- w.shared.inflight :: FlightOk(w, k)
  }

  /** The current flight of a key belongs to a call for that key which began
      after the key's last revocation, or has already answered since. */
  predicate FlightOk(w: World, k: string)
    requires k in w.shared.inflight
  {
    var f := w.shared.inflight[k];
    && f < w.next && f in w.calls && !w.calls[f].Waiting? && w.calls[f].key == k
    && (IsFetching(w, f) ==> w.calls[f].floor == Revoked(w, k))
    && Carried(w, f, Revoked(w, k))
  }

  ghost predicate RevokedOk(w: World) {
    w.serial > 0 && (forall k <- w.revoked :: w.revoked[k] < w.serial) && forall f <- w.outcomes :: f < w.next && AnswerOk(w.outcomes[f], w.now)
  }

  ghost predicate Inv(w: World) {
    ValidOrder(w.shared) && EntriesOk(w) && CallsOk(w) && FlightsOk(w) && RevokedOk(w)
  }

  lemma InitOk(start: real)
    ensures Inv(Init(start))
  {
  }

  // ---- arriving ------------------------------------------------------------------------------------

  lemma ArriveEntries(w: World, key: string)
    requires Inv(w)
    ensures EntriesOk(DoArrive(w, key)) && ValidOrder(DoArrive(w, key).shared) && RevokedOk(DoArrive(w, key))
  {
    BeginValid(w.shared, key, w.next, w.now);
    BeginKeepsEntries(w.shared, key, w.next, w.now);
  }

  lemma CachedOk(w: World, key: string)
    requires Inv(w) && ReplyTo(w.shared, key, w.now).Own? && ReplyTo(w.shared, key, w.now).cached.Some?
    ensures EntryOk(ReplyTo(w.shared, key, w.now).cached.value, Revoked(w, key), w.serial)
  {
    assert key in w.shared.entries && ReplyTo(w.shared, key, w.now).cached.value == w.shared.entries[key];
  }

  lemma ArriveCall(w: World, key: string, c: nat)
    requires Inv(w) && c in DoArrive(w, key).calls
    ensures c < DoArrive(w, key).next && CallOk(DoArrive(w, key), c)
  {
    if c in w.calls {
      assert CallOk(w, c) && c < w.next;
    } else {
      assert c == w.next && c !in w.outcomes;
      if ReplyTo(w.shared, key, w.now).Own? && ReplyTo(w.shared, key, w.now).cached.Some? { CachedOk(w, key); }
      if ReplyTo(w.shared, key, w.now).Join? { assert FlightOk(w, key); }
    }
  }

  lemma ArriveFlight(w: World, key: string, k: string)
    requires Inv(w) && k in DoArrive(w, key).shared.inflight
    ensures FlightOk(DoArrive(w, key), k)
  {
    BeginKeepsEntries(w.shared, key, w.next, w.now);
    if k in w.shared.inflight { assert FlightOk(w, k); }
  }

  lemma ArriveKeeps(w: World, key: string)
    requires Inv(w)
    ensures Inv(DoArrive(w, key))
  {
    ArriveEntries(w, key);
    var v := DoArrive(w, key);
    forall c | c in v.calls ensures c < v.next && CallOk(v, c) { ArriveCall(w, key, c); }
    forall k | k in v.shared.inflight ensures FlightOk(v, k) { ArriveFlight(w, key, k); }
  }

  // ---- answering --------------------------------------------------------------------------------------

  /** The new entry is newer than everything its call was told to be newer than. */
  lemma AnswerIsNewer(w: World, call: nat, fetched: Fetched, ttl: int, grace: int)
    requires Inv(w) && IsFetching(w, call)
    ensures EntryOk(AnswerEntry(w, call, fetched, ttl, grace), w.calls[call].floor, w.serial + 1)
    ensures fetched == Failure(Expired) ==> AnswerEntry(w, call, fetched, ttl, grace).user.None?
  {
    assert CallOk(w, call);
  }

  lemma AnswerEntries(w: World, call: nat, fetched: Fetched, ttl: int, grace: int)
    requires Inv(w) && IsFetching(w, call)
    ensures EntriesOk(DoAnswer(w, call, fetched, ttl, grace)) && ValidOrder(DoAnswer(w, call, fetched, ttl, grace).shared)
  {
    var key := w.calls[call].key;
    var e := AnswerEntry(w, call, fetched, ttl, grace);
    var v := DoAnswer(w, call, fetched, ttl, grace);
    AnswerIsNewer(w, call, fetched, ttl, grace);
    StoreKeepsEntries(w.shared, key, call, e);
    if IsCurrent(w.shared, key, call) {
      PutValid(w.shared, key, e);
      assert FlightOk(w, key);
    }
    forall k | k in v.shared.entries ensures EntryOk(v.shared.entries[k], Revoked(v, k), v.serial) {
      if k != key || !IsCurrent(w.shared, key, call) { assert EntryOk(w.shared.entries[k], Revoked(w, k), w.serial); }
    }
  }

  lemma AnswerCall(w: World, call: nat, fetched: Fetched, ttl: int, grace: int, c: nat)
    requires Inv(w) && IsFetching(w, call) && c in DoAnswer(w, call, fetched, ttl, grace).calls
    ensures c < w.next && CallOk(DoAnswer(w, call, fetched, ttl, grace), c)
  {
    assert c in w.calls && CallOk(w, c);
    AnswerIsNewer(w, call, fetched, ttl, grace);
  }

  lemma AnswerFlight(w: World, call: nat, fetched: Fetched, ttl: int, grace: int, k: string)
    requires Inv(w) && IsFetching(w, call) && k in DoAnswer(w, call, fetched, ttl, grace).shared.inflight
    ensures FlightOk(DoAnswer(w, call, fetched, ttl, grace), k)
  {
    var e := AnswerEntry(w, call, fetched, ttl, grace);
    StoreKeepsEntries(w.shared, w.calls[call].key, call, e);
    assert FlightOk(w, k);
    AnswerIsNewer(w, call, fetched, ttl, grace);
  }

  lemma AnswerKeeps(w: World, call: nat, fetched: Fetched, ttl: int, grace: int)
    requires Inv(w) && IsFetching(w, call)
    ensures Inv(DoAnswer(w, call, fetched, ttl, grace))
  {
    var v := DoAnswer(w, call, fetched, ttl, grace);
    AnswerEntries(w, call, fetched, ttl, grace);
    forall c | c in v.calls ensures c < v.next && CallOk(v, c) { AnswerCall(w, call, fetched, ttl, grace, c); }
    forall k | k in v.shared.inflight ensures FlightOk(v, k) { AnswerFlight(w, call, fetched, ttl, grace, k); }
    assert call < w.next;
  }

  // ---- the other steps -------------------------------------------------------------------------------

  lemma FailKeeps(w: World, call: nat)
    requires Inv(w) && IsFetching(w, call)
    ensures Inv(Apply(w, Fail(call)))
  {
    var v := Apply(w, Fail(call));
    forall c | c in v.calls ensures c < v.next && CallOk(v, c) { assert CallOk(w, c); }
    forall k | k in v.shared.inflight ensures FlightOk(v, k) { assert FlightOk(w, k); }
  }

  lemma CloseKeeps(w: World, call: nat)
    requires Inv(w) && call in w.calls && w.calls[call].Closing?
    ensures Inv(Apply(w, Close(call)))
  {
    var v := Apply(w, Close(call));
    forall c | c in v.calls ensures c < v.next && CallOk(v, c) { assert CallOk(w, c); }
    forall k | k in v.shared.inflight ensures FlightOk(v, k) { assert FlightOk(w, k); }
  }

  lemma WakeKeeps(w: World, call: nat)
    requires Inv(w) && call in w.calls && w.calls[call].Waiting?
    ensures Inv(Apply(w, Wake(call)))
  {
    var v := Apply(w, Wake(call));
    forall c | c in v.calls ensures c < v.next && CallOk(v, c) { assert CallOk(w, c); }
    forall k | k in v.shared.inflight ensures FlightOk(v, k) { assert FlightOk(w, k); }
  }

  lemma ForgetKeeps(w: World, key: string)
    requires Inv(w)
    ensures Inv(Apply(w, Forget(key)))
  {
    var v := Apply(w, Forget(key));
    DeleteValid(w.shared, key);
    forall c | c in v.calls ensures c < v.next && CallOk(v, c) { assert CallOk(w, c); }
    forall k | k in v.shared.inflight ensures FlightOk(v, k) { assert FlightOk(w, k); }
  }

  lemma TickKeeps(w: World, now: real)
    requires Inv(w)
    ensures Inv(Apply(w, Tick(now)))
  {
    var v := Apply(w, Tick(now));
    forall c | c in v.calls ensures c < v.next && CallOk(v, c) { assert CallOk(w, c); }
    forall k | k in v.shared.inflight ensures FlightOk(v, k) { assert FlightOk(w, k); }
  }

  lemma StepKeeps(w: World, s: Step)
    requires Inv(w)
    ensures Inv(Apply(w, s))
  {
    match s
    case Arrive(key) => ArriveKeeps(w, key);
    case Answer(call, fetched, ttl, grace) => if IsFetching(w, call) { AnswerKeeps(w, call, fetched, ttl, grace); }
    case Fail(call) => if IsFetching(w, call) { FailKeeps(w, call); }
    case Close(call) => if call in w.calls && w.calls[call].Closing? { CloseKeeps(w, call); }
    case Wake(call) => if call in w.calls && w.calls[call].Waiting? { WakeKeeps(w, call); }
    case Forget(key) => ForgetKeeps(w, key);
    case Tick(now) => TickKeeps(w, now);
  }

  lemma {:induction false} RunKeeps(w: World, steps: seq<Step>)
    requires Inv(w)
    ensures Inv(Run(w, steps))
  {
    if steps != [] {
      RunKeeps(w, steps[..|steps| - 1]);
      StepKeeps(Run(w, steps[..|steps| - 1]), steps[|steps| - 1]);
    }
  }

  // ---- what holds in every run -------------------------------------------------------------------------

  /** When the profile a step gives was chosen for return: now, or, for a call
      that joined a flight, when the flight answered. */
  function ChosenAt(w: World, s: Step): real
    requires Report(w, s).Some?
  {
    if s.Wake? then w.outcomes[w.calls[s.call].flight].at else w.now
  }

  /** The profile was fetched by the answer that gives it. */
  predicate JustFetched(w: World, s: Step, p: Profile)
    requires Report(w, s).Some?
  {
    match s
    case Answer(_, fetched, ttl, grace) => fetched.Success? && p == Profile(w.serial, w.now + ttl as real + grace as real)
    case Wake(call) => p.serial == w.outcomes[w.calls[call].flight].serial
    case _ => false
  }

  /** Whatever happened before, a profile is chosen for return only before its
      time runs out, however many refreshes failed in between; the one
      exception is a profile that the choosing answer itself has just fetched. */
  lemma NoProfileOutlivesItsDeadline(start: real, steps: seq<Step>, s: Step)
    requires Report(Run(Init(start), steps), s).Some?
    ensures var w := Run(Init(start), steps);
      && ChosenAt(w, s) <= w.now
      && (Report(w, s).value.result.user.Some? ==>
            var p := Report(w, s).value.result.user.value;
            ChosenAt(w, s) < p.deadline || JustFetched(w, s, p))
  {
    InitOk(start);
    RunKeeps(Init(start), steps);
    var w := Run(Init(start), steps);
    match s
    case Arrive(key) =>
      if key in w.shared.entries { assert EntryOk(w.shared.entries[key], Revoked(w, key), w.serial); }
    case Answer(call, _, _, _) => assert CallOk(w, call);
    case Wake(call) => assert AnswerOk(w.outcomes[w.calls[call].flight], w.now);
    case _ =>
  }

  // ---- calls that join a flight ------------------------------------------------------------------------

  /** The call about to begin joins a flight that has answered with a profile
      past its time, and is not closed yet. */
  predicate JoinsPast(w: World, key: string) {
    && ReplyTo(w.shared, key, w.now).Join?
    && var flight := w.shared.inflight[key];
       && flight in w.outcomes && w.outcomes[flight].Answered? && w.outcomes[flight].result.user.Some?
       && w.outcomes[flight].result.user.value.deadline <= w.now
  }

  lemma StepKeepsWaiting(w: World, s: Step, c: nat)
    requires Inv(w) && c < w.next && c in Apply(w, s).calls && Apply(w, s).calls[c].Waiting?
    ensures c in w.calls && w.calls[c] == Apply(w, s).calls[c]
  {
  }

  lemma StepKeepsOutcome(w: World, s: Step, f: nat)
    requires Inv(w) && f in w.outcomes
    ensures f in Apply(w, s).outcomes && Apply(w, s).outcomes[f] == w.outcomes[f] && w.next <= Apply(w, s).next
  {
    if s.Answer? && IsFetching(w, s.call) { assert CallOk(w, s.call); }
    if s.Fail? && IsFetching(w, s.call) { assert CallOk(w, s.call); }
  }

  lemma {:induction false} RunKeepsWaiting(w: World, steps: seq<Step>, c: nat)
    requires Inv(w) && c < w.next
    ensures c < Run(w, steps).next
    ensures c in Run(w, steps).calls && Run(w, steps).calls[c].Waiting? ==> c in w.calls && w.calls[c] == Run(w, steps).calls[c]
  {
    if steps != [] {
      var n := |steps| - 1;
      RunKeepsWaiting(w, steps[..n], c);
      RunKeeps(w, steps[..n]);
      var v := Run(w, steps[..n]);
      if c in Run(w, steps).calls && Run(w, steps).calls[c].Waiting? { StepKeepsWaiting(v, steps[n], c); }
    }
  }

  lemma {:induction false} RunKeepsOutcome(w: World, steps: seq<Step>, f: nat)
    requires Inv(w) && f in w.outcomes
    ensures f in Run(w, steps).outcomes && Run(w, steps).outcomes[f] == w.outcomes[f]
  {
    if steps != [] {
      var n := |steps| - 1;
      RunKeepsOutcome(w, steps[..n], f);
      RunKeeps(w, steps[..n]);
      StepKeepsOutcome(Run(w, steps[..n]), steps[n], f);
    }
  }

  /** A call that joins a flight is given a profile whose time was up when the
      call began exactly if it began by joining a flight with such an answer;
      profiles that were past their time when the flight answered (fetched with
      no lifetime at all) aside. */
  lemma JoinIsPastExactly(start: real, before: seq<Step>, key: string, between: seq<Step>)
    requires ReplyTo(Run(Init(start), before).shared, key, Run(Init(start), before).now).Join?
    ensures var w := Run(Init(start), before);
      var v := Run(Apply(w, Arrive(key)), between);
      var s := Wake(w.next);
      Report(v, s).Some? && Report(v, s).value.result.user.Some? ==>
        var p := Report(v, s).value.result.user.value;
        ChosenAt(v, s) < p.deadline ==> (p.deadline <= w.now <==> JoinsPast(w, key))
  {
    InitOk(start);
    RunKeeps(Init(start), before);
    var w := Run(Init(start), before);
    var u := Apply(w, Arrive(key));
    StepKeeps(w, Arrive(key));
    RunKeepsWaiting(u, between, w.next);
    RunKeeps(u, between);
    var v := Run(u, between);
    var flight := w.shared.inflight[key];
    if flight in w.outcomes { RunKeepsOutcome(u, between, flight); }
    if w.next in v.calls { assert CallOk(v, w.next); }
  }

  /** Such calls exist: a flight answers at 100 with a profile for two seconds
      and is not closed; a call that begins at 200 joins it and is given it. */
  lemma ALateJoinIsPast()
    ensures var w := Run(Init(100.0), [Arrive("k"), Answer(0, Success, 1, 1), Tick(200.0)]);
      && JoinsPast(w, "k") && w.now == 200.0
      && Report(Apply(w, Arrive("k")), Wake(1)) == Some(Reported(1, "k", Result(Some(Profile(1, 102.0)), None)))
  {
    var w1 := Apply(Init(100.0), Arrive("k"));
    var w2 := Apply(w1, Answer(0, Success, 1, 1));
    var w3 := Apply(w2, Tick(200.0));
    RunOfThree(Init(100.0), Arrive("k"), Answer(0, Success, 1, 1), Tick(200.0));
    AnswerAt100(w1, w2);
    assert w3 == w2.(now := 200.0);
    JoinAt200(w3);
  }

  lemma RunOfThree(w: World, a: Step, b: Step, c: Step)
    ensures Run(w, [a, b, c]) == Apply(Apply(Apply(w, a), b), c)
  {
    assert [a, b, c][..2] == [a, b] && [a, b][..1] == [a] && [a][..0] == [];
    assert Run(w, [a]) == Apply(w, a);
    assert Run(w, [a, b]) == Apply(Apply(w, a), b);
  }

  lemma AnswerAt100(w1: World, w2: World)
    requires w1 == Apply(Init(100.0), Arrive("k")) && w2 == Apply(w1, Answer(0, Success, 1, 1))
    ensures w2.next == 1 && w2.shared.inflight == map["k" := 0] && w2.calls == map[0 := Closing("k")]
    ensures w2.outcomes == map[0 := Answered(Result(Some(Profile(1, 102.0)), None), 100.0, 1)]
    ensures "k" in w2.shared.entries ==> w2.shared.entries["k"].discardAt == 102.0
  {
    assert w1.calls == map[0 := Fetching("k", None, 0)] && w1.shared.inflight == map["k" := 0];
    StoreKeepsEntries(w1.shared, "k", 0, AnswerEntry(w1, 0, Success, 1, 1));
  }

  lemma JoinAt200(w: World)
    requires w.now == 200.0 && w.next == 1 && w.shared.inflight == map["k" := 0] && w.calls == map[0 := Closing("k")]
    requires w.outcomes == map[0 := Answered(Result(Some(Profile(1, 102.0)), None), 100.0, 1)]
    requires "k" in w.shared.entries ==> w.shared.entries["k"].discardAt == 102.0
    ensures JoinsPast(w, "k")
    ensures Report(Apply(w, Arrive("k")), Wake(1)) == Some(Reported(1, "k", Result(Some(Profile(1, 102.0)), None)))
  {
    assert ReplyTo(w.shared, "k", 200.0) == Join(0);
  }

  /** Calls for a key from number `first` on began after its revocation `mark`. */
  ghost predicate After(w: World, key: string, first: nat, mark: nat) {
    && mark <= Revoked(w, key)
    && forall c <- w.calls :: c >= first && w.calls[c].key == key && !w.calls[c].Closing? ==> mark <= w.calls[c].floor
  }

  lemma StepKeepsAfter(w: World, s: Step, key: string, first: nat, mark: nat)
    requires Inv(w) && After(w, key, first, mark)
    ensures After(Apply(w, s), key, first, mark)
  {
    if s.Answer? && IsFetching(w, s.call) && w.calls[s.call].key == key && IsCurrent(w.shared, key, s.call) {
      assert Revoked(w, key) < w.serial || w.serial > 0;
    }
  }

  lemma {:induction false} RunKeepsAfter(w: World, steps: seq<Step>, key: string, first: nat, mark: nat)
    requires Inv(w) && After(w, key, first, mark)
    ensures After(Run(w, steps), key, first, mark)
  {
    if steps != [] {
      RunKeepsAfter(w, steps[..|steps| - 1], key, first, mark);
      RunKeeps(w, steps[..|steps| - 1]);
      StepKeepsAfter(Run(w, steps[..|steps| - 1]), steps[|steps| - 1], key, first, mark);
    }
  }

  lemma ReportIsNewer(w: World, s: Step, key: string, first: nat, mark: nat)
    requires Inv(w) && After(w, key, first, mark) && Report(w, s).Some?
    requires Report(w, s).value.key == key && Report(w, s).value.call >= first
    ensures Newer(Report(w, s).value.result.user, mark)
  {
    match s
    case Arrive(_) => if key in w.shared.entries { assert EntryOk(w.shared.entries[key], Revoked(w, key), w.serial); }
    case Answer(call, fetched, ttl, grace) => AnswerIsNewer(w, call, fetched, ttl, grace);
    case Wake(call) => assert CallOk(w, call);
    case _ =>
  }

  /** Once a current fetch has stored that a session expired, no call that begins
      later is given a profile fetched before that. */
  lemma NoRevivalAfterExpiry(start: real, before: seq<Step>, call: nat, ttl: int, grace: int, between: seq<Step>, s: Step)
    requires var w := Run(Init(start), before);
      IsFetching(w, call) && IsCurrent(w.shared, w.calls[call].key, call)
    ensures var w := Run(Init(start), before);
      var revoked := Apply(w, Answer(call, Failure(Expired), ttl, grace));
      var later := Run(revoked, between);
      (Report(later, s).Some? && Report(later, s).value.key == w.calls[call].key && Report(later, s).value.call >= w.next
       ==> Newer(Report(later, s).value.result.user, w.serial))
  {
    InitOk(start);
    RunKeeps(Init(start), before);
    var w := Run(Init(start), before);
    var key := w.calls[call].key;
    var revoked := Apply(w, Answer(call, Failure(Expired), ttl, grace));
    StepKeeps(w, Answer(call, Failure(Expired), ttl, grace));
    assert After(revoked, key, w.next, w.serial) by { Revocation(w, call, ttl, grace); }
    RunKeepsAfter(revoked, between, key, w.next, w.serial);
    RunKeeps(revoked, between);
    var later := Run(revoked, between);
    if Report(later, s).Some? && Report(later, s).value.key == key && Report(later, s).value.call >= w.next {
      ReportIsNewer(later, s, key, w.next, w.serial);
    }
  }

  lemma Revocation(w: World, call: nat, ttl: int, grace: int)
    requires Inv(w) && IsFetching(w, call) && IsCurrent(w.shared, w.calls[call].key, call)
    ensures After(Apply(w, Answer(call, Failure(Expired), ttl, grace)), w.calls[call].key, w.next, w.serial)
  {
    var v := Apply(w, Answer(call, Failure(Expired), ttl, grace));
    forall c | c in v.calls ensures c < w.next { assert c in w.calls; }
  }

  lemma StepLosesFlight(w: World, s: Step, c: nat)
    requires Inv(w) && IsFetching(Apply(w, s), c) && IsFetching(w, c)
    requires IsCurrent(w.shared, w.calls[c].key, c) && !IsCurrent(Apply(w, s).shared, w.calls[c].key, c)
    ensures s == Forget(w.calls[c].key)
  {
    match s
    case Arrive(key) => BeginKeepsEntries(w.shared, key, w.next, w.now);
    case Answer(call, fetched, ttl, grace) =>
      if IsFetching(w, call) { StoreKeepsEntries(w.shared, w.calls[call].key, call, AnswerEntry(w, call, fetched, ttl, grace)); }
    case _ =>
  }

  lemma StepStartsFetch(w: World, s: Step, c: nat)
    requires Inv(w) && IsFetching(Apply(w, s), c) && !IsFetching(w, c)
    ensures s.Arrive? && c == w.next && IsCurrent(Apply(w, s).shared, Apply(w, s).calls[c].key, c)
  {
  }

  /** The key was cleared while the call was fetching. */
  ghost predicate ClearedDuring(start: real, steps: seq<Step>, c: nat, key: string) {
    exists i :: 0 <= i < |steps| && steps[i] == Forget(key) && IsFetching(Run(Init(start), steps[..i]), c)
  }

  /** A fetch that is no longer the current one of its key was cleared while it ran. */
  lemma {:induction false} OnlyClearsRetireFetches(start: real, steps: seq<Step>, c: nat, key: string)
    requires var w := Run(Init(start), steps); IsFetching(w, c) && w.calls[c].key == key && !IsCurrent(w.shared, key, c)
    ensures ClearedDuring(start, steps, c, key)
  {
    var n := |steps| - 1;
    var before, s := Run(Init(start), steps[..n]), steps[n];
    InitOk(start);
    RunKeeps(Init(start), steps[..n]);
    FetchWasCurrent(before, s, c, key);
    if s != Forget(key) || !IsFetching(before, c) {
      OnlyClearsRetireFetches(start, steps[..n], c, key);
      var i :| 0 <= i < n && steps[..n][i] == Forget(key) && IsFetching(Run(Init(start), steps[..n][..i]), c);
      assert steps[..n][..i] == steps[..i] && steps[i] == Forget(key);
    }
  }

  lemma FetchWasCurrent(w: World, s: Step, c: nat, key: string)
    requires Inv(w) && IsFetching(Apply(w, s), c) && Apply(w, s).calls[c].key == key && !IsCurrent(Apply(w, s).shared, key, c)
    ensures IsFetching(w, c) && w.calls[c].key == key && (s == Forget(key) || !IsCurrent(w.shared, key, c))
  {
    if !IsFetching(w, c) { StepStartsFetch(w, s, c); }
    if IsCurrent(w.shared, key, c) { StepLosesFlight(w, s, c); }
  }

  /** So a key has at most one fetch in flight unless it was cleared meanwhile. */
  lemma OneFetchPerKey(start: real, steps: seq<Step>, w: World, c: nat, d: nat, key: string)
    requires w == Run(Init(start), steps)
    requires c != d && IsFetching(w, c) && IsFetching(w, d) && w.calls[c].key == key && w.calls[d].key == key
    ensures ClearedDuring(start, steps, c, key) || ClearedDuring(start, steps, d, key)
  {
    OnlyClearsRetireFetches(start, steps, if IsCurrent(w.shared, key, c) then d else c, key);
  }

  lemma StepKeepsRetired(w: World, s: Step, key: string, c: nat)
    requires c < w.next && !IsCurrent(w.shared, key, c)
    ensures c < Apply(w, s).next && !IsCurrent(Apply(w, s).shared, key, c)
  {
    match s
    case Arrive(k) => BeginKeepsEntries(w.shared, k, w.next, w.now);
    case Answer(call, fetched, ttl, grace) =>
      if IsFetching(w, call) { StoreKeepsEntries(w.shared, w.calls[call].key, call, AnswerEntry(w, call, fetched, ttl, grace)); }
    case _ =>
  }

  lemma {:induction false} RunKeepsRetired(w: World, steps: seq<Step>, key: string, c: nat)
    requires c < w.next && !IsCurrent(w.shared, key, c)
    ensures c < Run(w, steps).next && !IsCurrent(Run(w, steps).shared, key, c)
  {
    if steps != [] {
      RunKeepsRetired(w, steps[..|steps| - 1], key, c);
      StepKeepsRetired(Run(w, steps[..|steps| - 1]), steps[|steps| - 1], key, c);
    }
  }

  /** A fetch begun before its key was cleared never changes the cache. */
  lemma ClearedFetchNeverStores(start: real, before: seq<Step>, key: string, between: seq<Step>, v: World,
                                c: nat, fetched: Fetched, ttl: int, grace: int)
    requires IsFetching(Run(Init(start), before), c)
    requires v == Run(Apply(Run(Init(start), before), Forget(key)), between) && IsFetching(v, c) && v.calls[c].key == key
    ensures Apply(v, Answer(c, fetched, ttl, grace)).shared == v.shared
  {
    InitOk(start);
    RunKeeps(Init(start), before);
    var w := Run(Init(start), before);
    RunKeepsRetired(Apply(w, Forget(key)), between, key, c);
    StoreKeepsEntries(v.shared, key, c, AnswerEntry(v, c, fetched, ttl, grace));
  }

  lemma {:induction false} DistinctSize(s: seq<string>, keys: set<string>)
    requires Distinct(s) && forall k :: k in s <==> k in keys
    ensures |keys| == |s|
  {
    if s != [] {
      DistinctSize(s[1..], keys - {s[0]});
    } else {
      assert keys == {};
    }
  }

  /** The cache never holds more than 4096 sessions, and a call that waits always
      waits for a fetch that still runs or has an outcome to give. */
  lemma CacheIsBounded(start: real, steps: seq<Step>)
    ensures var w := Run(Init(start), steps);
      && |w.shared.entries| <= CACHE_LIMIT
      && forall c <- w.calls :: w.calls[c].Waiting? ==> IsFetching(w, w.calls[c].flight) || w.calls[c].flight in w.outcomes
  {
    InitOk(start);
    RunKeeps(Init(start), steps);
    var w := Run(Init(start), steps);
    DistinctSize(w.shared.order, w.shared.entries.Keys);
    forall c | c in w.calls && w.calls[c].Waiting? ensures IsFetching(w, w.calls[c].flight) || w.calls[c].flight in w.outcomes {
      assert CallOk(w, c);
    }
  }
}
