/** What the identity cache serves while the identity service fails: a profile
    keeps being given until its grace period ends, and failures are not asked
    for again at once. */
module IdentityGrace {
  import opened Options
  import opened IdentityCache
  import opened IdentitySafety

  // ---- what a stored entry survives --------------------------------------------------------

  lemma PruneKeepsLive(s: Shared, now: real, key: string)
    requires key in s.entries && now < s.entries[key].discardAt
    ensures key in Prune(s, now).entries && Prune(s, now).entries[key] == s.entries[key]
  {
  }

  lemma BeginKeepsLive(s: Shared, k: string, flight: nat, now: real, key: string)
    requires key in s.entries && now < s.entries[key].discardAt
    ensures key in Begin(s, k, flight, now).entries && Begin(s, k, flight, now).entries[key] == s.entries[key]
  {
    PruneKeepsLive(s, now, key);
  }

  /** Storing keeps the new entry, and all others but the one touched longest
      ago, which goes only when the cache is full. */
  lemma PutDropsOldest(s: Shared, key: string, e: Entry)
    requires ValidOrder(s)
    ensures var r := Put(s, key, e);
      && key in r.entries && r.entries[key] == e
      && (forall k <- s.entries :: k != key && (|Without(s.order, key)| < CACHE_LIMIT || k != Without(s.order, key)[0]) ==>
            k in r.entries && r.entries[k] == s.entries[k])
  {
    var t := Touch(s, key).(entries := s.entries[key := e]);
    if |t.order| > CACHE_LIMIT {
      WithoutDistinct(s.order, key);
      AppendDistinct(Without(s.order, key), key);
      FirstIsNotLast(t.order);
      var d := t.(order := t.order[1..], entries := t.entries - {t.order[0]});
      assert |d.order| <= CACHE_LIMIT && DropOldest(d) == d;
    }
  }

  lemma FirstIsNotLast(s: seq<string>)
    requires |s| > 1 && Distinct(s)
    ensures s[0] != s[|s| - 1]
  {
    assert s[|s| - 1] == s[1..][|s| - 2];
  }

  // ---- runs in which a key is left alone --------------------------------------------------------

  /** No clear of the key and no eviction, and its fetches only fail transiently. */
  predicate Calm(w: World, s: Step, key: string) {
    && s != Forget(key)
    && (s.Answer? && IsFetching(w, s.call) && w.calls[s.call].key == key && IsCurrent(w.shared, key, s.call) ==> s.fetched == Failure(Transient))
    && (s.Answer? && key in w.shared.entries ==> key in Apply(w, s).shared.entries)
  }

  predicate CalmRun(w: World, steps: seq<Step>, key: string) {
    steps == [] || (CalmRun(w, steps[..|steps| - 1], key) && Calm(Run(w, steps[..|steps| - 1]), steps[|steps| - 1], key))
  }

  /** A profile that a flight fetched: fresh until a time, usable until its
      deadline; calls from number `first` on began after it. */
  datatype Grant = Grant(key: string, profile: Profile, freshUntil: real, flight: nat, first: nat)

  predicate EntryKept(e: Entry, g: Grant) {
    && e.user == Some(g.profile) && e.expiresAt == g.freshUntil && e.discardAt == g.profile.deadline
    && ((e.error == None && e.retryAt == 0.0) || e.error == Some(Transient))
  }

  /** The answer of a later flight for the key. */
  predicate OutcomeKept(o: Outcome, g: Grant) {
    o.Answered? && o.at < g.profile.deadline ==> o.result == Result(Some(g.profile), Some(Transient)) && g.freshUntil <= o.at
  }

  predicate FetchKept(w: World, g: Grant, c: nat)
    requires IsFetching(w, c)
  {
    && w.calls[c].key == g.key && IsCurrent(w.shared, g.key, c)
    && (w.now < g.profile.deadline ==> w.calls[c].cached.Some? && EntryKept(w.calls[c].cached.value, g) && g.freshUntil <= w.now)
  }

  /** A flight that a call which began after the grant may have joined. */
  predicate FlightKept(w: World, g: Grant, f: nat) {
    if f == g.flight then f in w.outcomes && w.outcomes[f].Answered? && w.outcomes[f].result == Result(Some(g.profile), None)
    else f >= g.first && (if IsFetching(w, f) then FetchKept(w, g, f) else f in w.outcomes && OutcomeKept(w.outcomes[f], g))
  }

  predicate CallKept(w: World, g: Grant, c: nat)
    requires c in w.calls
  {
    c >= g.first && w.calls[c].key == g.key ==>
      match w.calls[c]
      case Fetching(_, _, _) => FetchKept(w, g, c)
      case Waiting(_, flight, _, _, _) => FlightKept(w, g, flight)
      case Closing(_) => true
  }

  predicate StillStored(w: World, g: Grant) {
    w.now < g.profile.deadline ==> g.key in w.shared.entries && EntryKept(w.shared.entries[g.key], g)
  }

  ghost predicate Kept(w: World, g: Grant) {
    && g.flight < g.first <= w.next && g.flight in w.outcomes && 0.0 <= w.now && StillStored(w, g)
    && (g.key in w.shared.inflight ==> FlightKept(w, g, w.shared.inflight[g.key]))
    && forall c <- w.calls :: CallKept(w, g, c)
  }

  // ---- every step keeps it --------------------------------------------------------------------------

  lemma ArriveStores(w: World, key: string, g: Grant)
    requires Kept(w, g)
    ensures StillStored(DoArrive(w, key), g)
  {
    if w.now < g.profile.deadline { BeginKeepsLive(w.shared, key, w.next, w.now, g.key); }
  }

  /** A fetch begins for the key only once the profile is no longer fresh, and with the kept entry. */
  lemma OwnIsKept(w: World, g: Grant)
    requires Kept(w, g) && ReplyTo(w.shared, g.key, w.now).Own?
    ensures w.now < g.profile.deadline ==>
      var cached := ReplyTo(w.shared, g.key, w.now).cached;
      cached.Some? && EntryKept(cached.value, g) && g.freshUntil <= w.now
  {
    if w.now < g.profile.deadline { PruneKeepsLive(w.shared, w.now, g.key); }
  }

  lemma ArriveFlightKept(w: World, key: string, g: Grant, f: nat)
    requires Inv(w) && Kept(w, g) && FlightKept(w, g, f) && f < w.next
    ensures FlightKept(DoArrive(w, key), g, f)
  {
    BeginKeepsEntries(w.shared, key, w.next, w.now);
  }

  lemma ArriveCallKept(w: World, key: string, g: Grant, c: nat)
    requires Inv(w) && Kept(w, g) && c in DoArrive(w, key).calls
    ensures CallKept(DoArrive(w, key), g, c)
  {
    BeginKeepsEntries(w.shared, key, w.next, w.now);
    if c in w.calls {
      assert CallOk(w, c) && CallKept(w, g, c);
      if w.calls[c].Waiting? && c >= g.first && w.calls[c].key == g.key { ArriveFlightKept(w, key, g, w.calls[c].flight); }
    } else if key == g.key {
      if ReplyTo(w.shared, key, w.now).Own? { OwnIsKept(w, g); }
      if ReplyTo(w.shared, key, w.now).Join? {
        assert FlightOk(w, key);
        ArriveFlightKept(w, key, g, w.shared.inflight[key]);
      }
    }
  }

  lemma ArriveKeepsGrant(w: World, key: string, g: Grant)
    requires Inv(w) && Kept(w, g)
    ensures Kept(DoArrive(w, key), g)
  {
    var v := DoArrive(w, key);
    ArriveStores(w, key, g);
    BeginKeepsEntries(w.shared, key, w.next, w.now);
    forall c | c in v.calls ensures CallKept(v, g, c) { ArriveCallKept(w, key, g, c); }
    if g.key in v.shared.inflight {
      if g.key in w.shared.inflight {
        assert FlightOk(w, g.key);
        ArriveFlightKept(w, key, g, w.shared.inflight[g.key]);
      } else {
        ArriveCallKept(w, key, g, w.next);
      }
    }
  }

  lemma StoredElsewhere(w: World, call: nat, fetched: Fetched, ttl: int, grace: int, g: Grant)
    requires Inv(w) && IsFetching(w, call) && Kept(w, g) && Calm(w, Answer(call, fetched, ttl, grace), g.key)
    requires w.calls[call].key != g.key || !IsCurrent(w.shared, g.key, call)
    ensures StillStored(DoAnswer(w, call, fetched, ttl, grace), g)
  {
    StoreKeepsEntries(w.shared, w.calls[call].key, call, AnswerEntry(w, call, fetched, ttl, grace));
  }

  /** The current fetch of the key fails: the profile is stored and given again. */
  lemma RefreshFails(w: World, call: nat, ttl: int, grace: int, g: Grant)
    requires Inv(w) && IsFetching(w, call) && Kept(w, g) && w.calls[call].key == g.key && IsCurrent(w.shared, g.key, call)
    ensures var v := DoAnswer(w, call, Failure(Transient), ttl, grace);
      call >= g.first && call in v.outcomes && OutcomeKept(v.outcomes[call], g) && StillStored(v, g)
  {
    var e := AnswerEntry(w, call, Failure(Transient), ttl, grace);
    assert CallOk(w, call) && FlightKept(w, g, call) && FetchKept(w, g, call);
    PutDropsOldest(w.shared, g.key, e);
  }

  lemma AnswerFlightKept(w: World, call: nat, fetched: Fetched, ttl: int, grace: int, g: Grant, f: nat)
    requires Inv(w) && IsFetching(w, call) && Kept(w, g) && Calm(w, Answer(call, fetched, ttl, grace), g.key) && FlightKept(w, g, f)
    ensures FlightKept(DoAnswer(w, call, fetched, ttl, grace), g, f)
  {
    StoreKeepsEntries(w.shared, w.calls[call].key, call, AnswerEntry(w, call, fetched, ttl, grace));
    assert CallOk(w, call);
    if f == call { RefreshFails(w, call, ttl, grace, g); }
  }

  lemma AnswerCallKept(w: World, call: nat, fetched: Fetched, ttl: int, grace: int, g: Grant, c: nat)
    requires Inv(w) && IsFetching(w, call) && Kept(w, g) && Calm(w, Answer(call, fetched, ttl, grace), g.key)
    requires c in DoAnswer(w, call, fetched, ttl, grace).calls
    ensures CallKept(DoAnswer(w, call, fetched, ttl, grace), g, c)
  {
    assert c in w.calls && CallKept(w, g, c);
    StoreKeepsEntries(w.shared, w.calls[call].key, call, AnswerEntry(w, call, fetched, ttl, grace));
    if w.calls[c].Waiting? && c >= g.first && w.calls[c].key == g.key {
      AnswerFlightKept(w, call, fetched, ttl, grace, g, w.calls[c].flight);
    }
  }

  lemma AnswerKeepsGrant(w: World, call: nat, fetched: Fetched, ttl: int, grace: int, g: Grant)
    requires Inv(w) && IsFetching(w, call) && Kept(w, g) && Calm(w, Answer(call, fetched, ttl, grace), g.key)
    ensures Kept(DoAnswer(w, call, fetched, ttl, grace), g)
  {
    var v := DoAnswer(w, call, fetched, ttl, grace);
    if w.calls[call].key == g.key && IsCurrent(w.shared, g.key, call) { RefreshFails(w, call, ttl, grace, g); }
    else { StoredElsewhere(w, call, fetched, ttl, grace, g); }
    StoreKeepsEntries(w.shared, w.calls[call].key, call, AnswerEntry(w, call, fetched, ttl, grace));
    forall c | c in v.calls ensures CallKept(v, g, c) { AnswerCallKept(w, call, fetched, ttl, grace, g, c); }
    if g.key in v.shared.inflight { AnswerFlightKept(w, call, fetched, ttl, grace, g, w.shared.inflight[g.key]); }
  }

  /** The steps that neither begin nor answer a call. */
  lemma OtherFlightKept(w: World, s: Step, g: Grant, f: nat)
    requires Inv(w) && Kept(w, g) && Calm(w, s, g.key) && !s.Arrive? && !s.Answer? && FlightKept(w, g, f)
    ensures FlightKept(Apply(w, s), g, f)
  {
    if s.Fail? && IsFetching(w, s.call) { assert CallOk(w, s.call); }
    if s.Close? && s.call in w.calls { assert CallOk(w, s.call); }
  }

  lemma OtherKeepsGrant(w: World, s: Step, g: Grant)
    requires Inv(w) && Kept(w, g) && Calm(w, s, g.key) && !s.Arrive? && !s.Answer?
    ensures Kept(Apply(w, s), g)
  {
    var v := Apply(w, s);
    forall c | c in v.calls ensures CallKept(v, g, c) { OtherCallKept(w, s, g, c); }
    if g.key in v.shared.inflight { OtherFlightKept(w, s, g, w.shared.inflight[g.key]); }
  }

  lemma OtherCallKept(w: World, s: Step, g: Grant, c: nat)
    requires Inv(w) && Kept(w, g) && Calm(w, s, g.key) && !s.Arrive? && !s.Answer? && c in Apply(w, s).calls
    ensures CallKept(Apply(w, s), g, c)
  {
    assert c in w.calls && CallKept(w, g, c) && CallOk(w, c);
    if s.Close? && s.call in w.calls { assert CallOk(w, s.call); }
    if w.calls[c].Waiting? && c >= g.first && w.calls[c].key == g.key { OtherFlightKept(w, s, g, w.calls[c].flight); }
  }

  lemma StepKeepsGrant(w: World, s: Step, g: Grant)
    requires Inv(w) && Kept(w, g) && Calm(w, s, g.key)
    ensures Kept(Apply(w, s), g)
  {
    match s
    case Arrive(key) => ArriveKeepsGrant(w, key, g);
    case Answer(call, fetched, ttl, grace) => if IsFetching(w, call) { AnswerKeepsGrant(w, call, fetched, ttl, grace, g); }
    case _ => OtherKeepsGrant(w, s, g);
  }

  lemma {:induction false} RunKeepsGrant(w: World, steps: seq<Step>, g: Grant)
    requires Inv(w) && Kept(w, g) && CalmRun(w, steps, g.key)
    ensures Kept(Run(w, steps), g)
  {
    if steps != [] {
      var n := |steps| - 1;
      RunKeepsGrant(w, steps[..n], g);
      RunKeeps(w, steps[..n]);
      StepKeepsGrant(Run(w, steps[..n]), steps[n], g);
    }
  }

  // ---- the main result ---------------------------------------------------------------------------------

  function GrantOf(w: World, call: nat, ttl: int, grace: int): Grant
    requires IsFetching(w, call)
  {
    Grant(w.calls[call].key, Profile(w.serial, w.now + ttl as real + grace as real), w.now + ttl as real, call, w.next)
  }

  lemma SuccessGrants(w: World, call: nat, ttl: int, grace: int)
    requires Inv(w) && 0.0 <= w.now && IsFetching(w, call) && IsCurrent(w.shared, w.calls[call].key, call)
    ensures Kept(DoAnswer(w, call, Success, ttl, grace), GrantOf(w, call, ttl, grace))
  {
    var g, v := GrantOf(w, call, ttl, grace), DoAnswer(w, call, Success, ttl, grace);
    assert CallOk(w, call) && call < w.next;
    PutDropsOldest(w.shared, g.key, AnswerEntry(w, call, Success, ttl, grace));
    StoreKeepsEntries(w.shared, g.key, call, AnswerEntry(w, call, Success, ttl, grace));
    forall c | c in v.calls ensures CallKept(v, g, c) { assert c in w.calls && c < w.next; }
  }

  /** What an answer says beside the profile: nothing while the profile is fresh
      or when the call joined the flight that fetched it, and that the service
      failed otherwise. */
  predicate ErrorFits(w: World, s: Step, g: Grant, error: Option<Problem>) {
    && (w.now < g.freshUntil ==> error == None)
    && match s
       case Arrive(_) => error == if w.now < g.freshUntil then None else Some(Transient)
       case Answer(_, _, _, _) => error == Some(Transient)
       case Wake(call) => call in w.calls && w.calls[call].Waiting? && error == if w.calls[call].flight == g.flight then None else Some(Transient)
       case _ => false
  }

  lemma ReportServes(w: World, s: Step, g: Grant)
    requires Inv(w) && Kept(w, g) && Calm(w, s, g.key) && Report(w, s).Some?
    requires Report(w, s).value.key == g.key && Report(w, s).value.call >= g.first && w.now < g.profile.deadline
    ensures Report(w, s).value.result.user == Some(g.profile) && ErrorFits(w, s, g, Report(w, s).value.result.error)
  {
    match s
    case Arrive(key) => PruneKeepsLive(w.shared, w.now, key);
    case Answer(call, _, ttl, grace) =>
      assert CallKept(w, g, call) && FetchKept(w, g, call);
    case Wake(call) =>
      assert CallKept(w, g, call) && FlightKept(w, g, w.calls[call].flight);
      assert CallOk(w, call) && AnswerOk(w.outcomes[w.calls[call].flight], w.now);
    case _ =>
  }

  lemma {:induction false} ClockKeeps(start: real, steps: seq<Step>)
    ensures start <= Run(Init(start), steps).now
  {
    if steps != [] { ClockKeeps(start, steps[..|steps| - 1]); }
  }

  lemma ReachedOk(start: real, steps: seq<Step>, w: World)
    requires 0.0 <= start && w == Run(Init(start), steps)
    ensures Inv(w) && 0.0 <= w.now
  {
    InitOk(start);
    RunKeeps(Init(start), steps);
    ClockKeeps(start, steps);
  }

  lemma GrantHolds(w: World, call: nat, ttl: int, grace: int, between: seq<Step>, u: World, v: World, g: Grant)
    requires Inv(w) && 0.0 <= w.now && IsFetching(w, call) && IsCurrent(w.shared, w.calls[call].key, call)
    requires u == Apply(w, Answer(call, Success, ttl, grace)) && v == Run(u, between)
    requires g == GrantOf(w, call, ttl, grace) && CalmRun(u, between, g.key)
    ensures Inv(v) && Kept(v, g)
  {
    StepKeeps(w, Answer(call, Success, ttl, grace));
    SuccessGrants(w, call, ttl, grace);
    RunKeepsGrant(u, between, g);
    RunKeeps(u, between);
  }

  /** Once a current fetch succeeded at time t, and as long as its key is neither
      cleared nor evicted and refreshes only fail transiently, every call that
      begins later and is answered before t + ttl + grace is given that very
      profile: without an error before t + ttl, and afterwards with a transient
      one, unless the call joined the flight that fetched it. */
  lemma GraceServes(start: real, before: seq<Step>, call: nat, ttl: int, grace: int, between: seq<Step>, s: Step, w: World, u: World, v: World, g: Grant)
    requires 0.0 <= start && w == Run(Init(start), before)
    requires IsFetching(w, call) && IsCurrent(w.shared, w.calls[call].key, call)
    requires u == Apply(w, Answer(call, Success, ttl, grace)) && v == Run(u, between)
    requires g == Grant(w.calls[call].key, Profile(w.serial, w.now + ttl as real + grace as real), w.now + ttl as real, call, w.next)
    requires CalmRun(u, between, g.key) && Calm(v, s, g.key)
    requires Report(v, s).Some? && Report(v, s).value.key == g.key && Report(v, s).value.call >= g.first && v.now < g.profile.deadline
    ensures Report(v, s).value.result.user == Some(g.profile)
    ensures ErrorFits(v, s, g, Report(v, s).value.result.error)
  {
    ReachedOk(start, before, w);
    GrantHolds(w, call, ttl, grace, between, u, v, g);
    ReportServes(v, s, g);
  }

  // ---- a failure is not asked for again at once ---------------------------------------------------

  /** No clear of the key and no eviction. */
  predicate Undisturbed(w: World, s: Step, key: string) {
    s != Forget(key) && (s.Answer? && key in w.shared.entries ==> key in Apply(w, s).shared.entries)
  }

  predicate UndisturbedRun(w: World, steps: seq<Step>, key: string) {
    steps == [] || (UndisturbedRun(w, steps[..|steps| - 1], key) && Undisturbed(Run(w, steps[..|steps| - 1]), steps[|steps| - 1], key))
  }

  /** Until it may be tried again, the entry stays and no fetch of the key is current. */
  predicate Throttled(w: World, key: string, e: Entry) {
    w.now < e.retryAt <= e.discardAt ==>
      && key in w.shared.entries && w.shared.entries[key] == e
      && (key in w.shared.inflight ==> !IsFetching(w, w.shared.inflight[key]))
  }

  lemma ThrottledHit(w: World, key: string, e: Entry)
    requires Throttled(w, key, e) && w.now < e.retryAt <= e.discardAt
    ensures ReplyTo(w.shared, key, w.now) == Hit(Result(e.user, if w.now < e.expiresAt then None else e.error))
  {
    PruneKeepsLive(w.shared, w.now, key);
  }

  lemma ArriveThrottles(w: World, k: string, key: string, e: Entry)
    requires Inv(w) && Throttled(w, key, e) && w.now < e.retryAt <= e.discardAt
    ensures Throttled(DoArrive(w, k), key, e)
  {
    BeginKeepsLive(w.shared, k, w.next, w.now, key);
    BeginKeepsEntries(w.shared, k, w.next, w.now);
    ThrottledHit(w, key, e);
    if key in w.shared.inflight { assert FlightOk(w, key); }
  }

  lemma StepThrottles(w: World, s: Step, key: string, e: Entry)
    requires Inv(w) && Throttled(w, key, e) && Undisturbed(w, s, key)
    ensures Throttled(Apply(w, s), key, e)
  {
    if Apply(w, s).now < e.retryAt <= e.discardAt {
      match s
      case Arrive(k) => ArriveThrottles(w, k, key, e);
      case Answer(call, fetched, ttl, grace) =>
        if IsFetching(w, call) { StoreKeepsEntries(w.shared, w.calls[call].key, call, AnswerEntry(w, call, fetched, ttl, grace)); }
      case _ =>
    }
  }

  lemma {:induction false} RunThrottles(w: World, steps: seq<Step>, key: string, e: Entry)
    requires Inv(w) && Throttled(w, key, e) && UndisturbedRun(w, steps, key)
    ensures Throttled(Run(w, steps), key, e)
  {
    if steps != [] {
      var n := |steps| - 1;
      RunThrottles(w, steps[..n], key, e);
      RunKeeps(w, steps[..n]);
      StepThrottles(Run(w, steps[..n]), steps[n], key, e);
    }
  }

  lemma FailureThrottles(w: World, call: nat, error: Problem, ttl: int, grace: int)
    requires Inv(w) && IsFetching(w, call) && IsCurrent(w.shared, w.calls[call].key, call)
    ensures Throttled(Apply(w, Answer(call, Failure(error), ttl, grace)), w.calls[call].key, AnswerEntry(w, call, Failure(error), ttl, grace))
  {
    PutDropsOldest(w.shared, w.calls[call].key, AnswerEntry(w, call, Failure(error), ttl, grace));
    StoreKeepsEntries(w.shared, w.calls[call].key, call, AnswerEntry(w, call, Failure(error), ttl, grace));
  }

  /** Once a current fetch failed at time t, and as long as its key is neither
      cleared nor evicted, every call that begins before t + 5, and before the
      deadline of the profile it left, is answered at once as that fetch was,
      without another one. */
  lemma FailuresAreThrottled(start: real, before: seq<Step>, call: nat, error: Problem, ttl: int, grace: int, between: seq<Step>,
                             w: World, s: Step, u: World, v: World, r: Result)
    requires 0.0 <= start && w == Run(Init(start), before)
    requires IsFetching(w, call) && IsCurrent(w.shared, w.calls[call].key, call)
    requires s == Answer(call, Failure(error), ttl, grace) && r == Report(w, s).value.result && u == Apply(w, s) && v == Run(u, between)
    requires UndisturbedRun(u, between, w.calls[call].key)
    requires v.now < w.now + 5.0 && (r.user.Some? ==> v.now < r.user.value.deadline)
    ensures ReplyTo(v.shared, w.calls[call].key, v.now).Hit?
    ensures ReplyTo(v.shared, w.calls[call].key, v.now).result.user == r.user
    ensures r.user.None? ==> ReplyTo(v.shared, w.calls[call].key, v.now).result == r
  {
    ReachedOk(start, before, w);
    var key, e := w.calls[call].key, AnswerEntry(w, call, Failure(error), ttl, grace);
    assert CallOk(w, call);
    FailureThrottles(w, call, error, ttl, grace);
    StepKeeps(w, s);
    RunThrottles(u, between, key, e);
    RunClock(u, between);
    ThrottledHit(v, key, e);
  }

  lemma {:induction false} RunClock(w: World, steps: seq<Step>)
    ensures w.now <= Run(w, steps).now
  {
    if steps != [] { RunClock(w, steps[..|steps| - 1]); }
  }
}
