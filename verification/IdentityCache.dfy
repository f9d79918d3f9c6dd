/** The identity cache (app/identity/cookie_session.py): what each of its lock
    sections does, as functions of the shared state and as an object whose
    methods carry them out. */
module IdentityCache {
  import opened Options
  import opened Collections

  const CACHE_LIMIT: nat := 4096
  const RETRY_SECONDS: real := 5.0
  const CLEANUP_SECONDS: real := 60.0

  datatype Problem = Expired | Transient | NoCache

  /** A fetched profile: which fetch it came from, and when it may no longer be used. */
  datatype Profile = Profile(serial: nat, deadline: real)

  datatype Entry = Entry(user: Option<Profile>, expiresAt: real, discardAt: real, retryAt: real, error: Option<Problem>)

  /** The outcome of one fetch. */
  datatype Fetched = Success | Failure(error: Problem)

  datatype Result = Result(user: Option<Profile>, error: Option<Problem>)

  /** The ordered cache and the fetches in flight, each known by a number. */
  datatype Shared = Shared(order: seq<string>, entries: map<string, Entry>, inflight: map<string, nat>, nextCleanup: real)

  // ---- the ordered dictionary ---------------------------------------------------------------

  predicate Distinct(s: seq<string>) {
    s == [] || (s[0] !in s[1..] && Distinct(s[1..]))
  }

  function Without(s: seq<string>, key: string): (r: seq<string>)
    ensures forall k :: k in r <==> k in s && k != key
    ensures |r| <= |s|
  {
    if s == [] then [] else if s[0] == key then Without(s[1..], key) else [s[0]] + Without(s[1..], key)
  }

  ghost predicate ValidOrder(s: Shared) {
    Distinct(s.order) && (forall k :: k in s.order <==> k in s.entries) && |s.order| <= CACHE_LIMIT
  }

  function Delete(s: Shared, key: string): Shared {
    s.(order := Without(s.order, key), entries := s.entries - {key})
  }

  function Touch(s: Shared, key: string): Shared {
    s.(order := Without(s.order, key) + [key])
  }

  function Alive(order: seq<string>, entries: map<string, Entry>, now: real): seq<string> {
    if order == [] then []
    else (if order[0] in entries && now < entries[order[0]].discardAt then [order[0]] else []) + Alive(order[1..], entries, now)
  }

  /** `_prune_cache`: at most once a minute, drop what is past its time. */
  function Prune(s: Shared, now: real): Shared {
    if now < s.nextCleanup then s
    else s.(order := Alive(s.order, s.entries, now),
            entries := map k | k in s.entries && now < s.entries[k].discardAt :: s.entries[k],
            nextCleanup := now + CLEANUP_SECONDS)
  }

  /** Puts an entry last, then drops the oldest ones beyond the limit. */
  function Put(s: Shared, key: string, e: Entry): Shared {
    DropOldest(Touch(s, key).(entries := s.entries[key := e]))
  }

  function DropOldest(s: Shared): Shared
    decreases |s.order|
  {
    if |s.order| > CACHE_LIMIT then DropOldest(s.(order := s.order[1..], entries := s.entries - {s.order[0]})) else s
  }

  // ---- the lock sections ----------------------------------------------------------------------

  datatype Reply = Hit(result: Result) | Join(flight: nat) | Own(cached: Option<Entry>)

  /** The usable entry for a key once the cache has been pruned. */
  function Usable(s: Shared, key: string, now: real): Option<Entry> {
    if key in s.entries && now < s.entries[key].discardAt then Some(s.entries[key]) else None
  }

  /** Looks the key up: old entries go, a usable one moves to the end. */
  function LookedUp(s: Shared, key: string, now: real): Shared {
    var pruned := Prune(s, now);
    if Usable(pruned, key, now).Some? then Touch(pruned, key) else if key in pruned.entries then Delete(pruned, key) else pruned
  }

  function ReplyTo(s: Shared, key: string, now: real): Reply {
    var cached := Usable(Prune(s, now), key, now);
    if cached.Some? && now < cached.value.expiresAt then Hit(Result(cached.value.user, None))
    else if cached.Some? && now < cached.value.retryAt then Hit(Result(cached.value.user, cached.value.error))
    else if key in s.inflight then Join(s.inflight[key])
    else Own(cached)
  }

  /** The first lock section of `resolve_userinfo`. */
  function Begin(s: Shared, key: string, flight: nat, now: real): Shared {
    var looked := LookedUp(s, key, now);
    if ReplyTo(s, key, now).Own? then looked.(inflight := looked.inflight[key := flight]) else looked
  }

  /** `_entry_for_result` */
  function EntryFor(cached: Option<Entry>, fetched: Fetched, serial: nat, now: real, ttl: int, grace: int): Entry {
    if fetched.Success? then
      var deadline := now + ttl as real + grace as real;
      Entry(Some(Profile(serial, deadline)), now + ttl as real, deadline, 0.0, None)
    else if fetched.error == Expired then
      Entry(None, now, now + RETRY_SECONDS, now + RETRY_SECONDS, Some(Expired))
    else if cached.Some? && cached.value.user.Some? && now < cached.value.discardAt then
      var retry := if now + RETRY_SECONDS < cached.value.discardAt then now + RETRY_SECONDS else cached.value.discardAt;
      cached.value.(retryAt := retry, error := Some(Transient))
    else
      Entry(None, now, now + RETRY_SECONDS, now + RETRY_SECONDS, Some(NoCache))
  }

  predicate IsCurrent(s: Shared, key: string, flight: nat) { key in s.inflight && s.inflight[key] == flight }

  /** The second: the entry is stored only while the fetch is still the current one. */
  function Store(s: Shared, key: string, flight: nat, e: Entry): Shared {
    if IsCurrent(s, key, flight) then Put(s, key, e) else s
  }

  /** The third, in `finally`. */
  function Finish(s: Shared, key: string, flight: nat): Shared {
    if IsCurrent(s, key, flight) then s.(inflight := s.inflight - {key}) else s
  }

  /** `clear_cache_for_cookie` */
  function Clear(s: Shared, key: string): Shared {
    Delete(s, key).(inflight := s.inflight - {key})
  }

  // ---- the order stays valid ----------------------------------------------------------------------

  lemma {:induction false} WithoutDistinct(s: seq<string>, key: string)
    requires Distinct(s)
    ensures Distinct(Without(s, key)) && (key in s ==> |Without(s, key)| < |s|)
  {
    if s != [] {
      WithoutDistinct(s[1..], key);
      if s[0] != key { assert Without(s, key)[1..] == Without(s[1..], key); }
    }
  }

  lemma {:induction false} AppendDistinct(s: seq<string>, key: string)
    requires Distinct(s) && key !in s
    ensures Distinct(s + [key])
  {
    if s == [] {
      assert [key][1..] == [];
    } else {
      AppendDistinct(s[1..], key);
      assert (s + [key])[1..] == s[1..] + [key];
    }
  }

  lemma {:induction false} AliveDistinct(s: seq<string>, entries: map<string, Entry>, now: real)
    requires Distinct(s)
    ensures Distinct(Alive(s, entries, now))
  {
    if s != [] {
      AliveDistinct(s[1..], entries, now);
      AliveMembers(s[1..], entries, now);
      var rest := Alive(s[1..], entries, now);
      if s[0] in entries && now < entries[s[0]].discardAt { assert Alive(s, entries, now)[1..] == rest; }
      else { assert Alive(s, entries, now) == rest; }
    }
  }

  lemma {:induction false} AliveMembers(order: seq<string>, entries: map<string, Entry>, now: real)
    ensures |Alive(order, entries, now)| <= |order|
    ensures forall k :: k in Alive(order, entries, now) <==> k in order && k in entries && now < entries[k].discardAt
  {
    if order != [] { AliveMembers(order[1..], entries, now); }
  }

  lemma DeleteValid(s: Shared, key: string)
    requires ValidOrder(s)
    ensures ValidOrder(Delete(s, key))
  {
    WithoutDistinct(s.order, key);
  }

  lemma TouchValid(s: Shared, key: string)
    requires ValidOrder(s) && key in s.entries
    ensures ValidOrder(Touch(s, key))
  {
    WithoutDistinct(s.order, key);
    AppendDistinct(Without(s.order, key), key);
  }

  lemma PruneValid(s: Shared, now: real)
    requires ValidOrder(s)
    ensures ValidOrder(Prune(s, now))
  {
    AliveDistinct(s.order, s.entries, now);
    AliveMembers(s.order, s.entries, now);
  }

  lemma DropFirst(s: Shared)
    requires Distinct(s.order) && (forall k :: k in s.order <==> k in s.entries) && s.order != []
    ensures var r := s.(order := s.order[1..], entries := s.entries - {s.order[0]});
      Distinct(r.order) && forall k :: k in r.order <==> k in r.entries
  {
    assert s.order == [s.order[0]] + s.order[1..];
  }

  lemma PutValid(s: Shared, key: string, e: Entry)
    requires ValidOrder(s)
    ensures ValidOrder(Put(s, key, e))
  {
    WithoutDistinct(s.order, key);
    AppendDistinct(Without(s.order, key), key);
    var r := Touch(s, key).(entries := s.entries[key := e]);
    if |r.order| > CACHE_LIMIT {
      DropFirst(r);
      var d := r.(order := r.order[1..], entries := r.entries - {r.order[0]});
      assert |d.order| <= CACHE_LIMIT && DropOldest(d) == d;
    }
  }

  lemma BeginValid(s: Shared, key: string, flight: nat, now: real)
    requires ValidOrder(s)
    ensures ValidOrder(Begin(s, key, flight, now))
  {
    PruneValid(s, now);
    var pruned := Prune(s, now);
    if key in pruned.entries {
      TouchValid(pruned, key);
      DeleteValid(pruned, key);
    }
  }

  /** What a lock section leaves in the cache was there before, or was just stored. */
  lemma {:induction false} DropKeepsEntries(s: Shared)
    ensures DropOldest(s).inflight == s.inflight
    ensures forall k <- DropOldest(s).entries :: k in s.entries && DropOldest(s).entries[k] == s.entries[k]
    decreases |s.order|
  {
    if |s.order| > CACHE_LIMIT { DropKeepsEntries(s.(order := s.order[1..], entries := s.entries - {s.order[0]})); }
  }

  lemma BeginKeepsEntries(s: Shared, key: string, flight: nat, now: real)
    ensures forall k <- Begin(s, key, flight, now).entries :: k in s.entries && Begin(s, key, flight, now).entries[k] == s.entries[k]
    ensures Begin(s, key, flight, now).inflight == if ReplyTo(s, key, now).Own? then s.inflight[key := flight] else s.inflight
  {
  }

  lemma StoreKeepsEntries(s: Shared, key: string, flight: nat, e: Entry)
    ensures var r := Store(s, key, flight, e);
      && r.inflight == s.inflight
      && (forall k <- r.entries :: if k == key && IsCurrent(s, key, flight) then r.entries[k] == e else k in s.entries && r.entries[k] == s.entries[k])
      && (!IsCurrent(s, key, flight) ==> r == s)
  {
    DropKeepsEntries(Touch(s, key).(entries := s.entries[key := e]));
  }

  lemma AliveFrom(order: seq<string>, entries: map<string, Entry>, now: real, i: nat)
    requires i < |order|
    ensures Alive(order[i..], entries, now)
         == (if order[i] in entries && now < entries[order[i]].discardAt then [order[i]] else []) + Alive(order[i + 1..], entries, now)
  {
    var left := order[i..];
    assert left[0] == order[i] && left[1..] == order[i + 1..];
  }

  /** Which keys are still alive. */
  method LiveKeys(order: seq<string>, entries: map<string, Entry>, now: real) returns (kept: seq<string>)
    ensures kept == Alive(order, entries, now)
  {
    kept := [];
    var i := 0;
    while i < |order|
      invariant 0 <= i <= |order|
      invariant kept + Alive(order[i..], entries, now) == Alive(order, entries, now)
    {
      AliveFrom(order, entries, now, i);
      var more := if order[i] in entries && now < entries[order[i]].discardAt then [order[i]] else [];
      Associative(kept, more, Alive(order[i + 1..], entries, now));
      kept := kept + more;
      i := i + 1;
    }
    assert order[i..] == [];
  }

  // ---- the object -------------------------------------------------------------------------------------

  /** The module's globals under their lock. */
  class Cache {
    var order: seq<string>
    var entries: map<string, Entry>
    var inflight: map<string, nat>
    var nextCleanup: real

    ghost function State(): Shared
      reads this
    {
      Shared(order, entries, inflight, nextCleanup)
    }

    constructor ()
      ensures State() == Shared([], map[], map[], 0.0) && ValidOrder(State())
    {
      order, entries, inflight, nextCleanup := [], map[], map[], 0.0;
    }

    method PruneCache(now: real)
      requires ValidOrder(State())
      modifies this
      ensures State() == Prune(old(State()), now) && ValidOrder(State())
    {
      PruneValid(State(), now);
      if now < nextCleanup { return; }
      order := LiveKeys(order, entries, now);
      entries := map k | k in entries && now < entries[k].discardAt :: entries[k];
      nextCleanup := now + CLEANUP_SECONDS;
    }

    method BeginResolve(key: string, flight: nat, now: real) returns (reply: Reply)
      requires ValidOrder(State())
      modifies this
      ensures State() == Begin(old(State()), key, flight, now) && ValidOrder(State())
      ensures reply == ReplyTo(old(State()), key, now)
    {
      BeginValid(State(), key, flight, now);
      PruneCache(now);
      var cached := None;
      if key in entries {
        if now >= entries[key].discardAt {
          order, entries := Without(order, key), entries - {key};
        } else {
          cached := Some(entries[key]);
          order := Without(order, key) + [key];
          if now < entries[key].expiresAt { return Hit(Result(entries[key].user, None)); }
          if now < entries[key].retryAt { return Hit(Result(entries[key].user, entries[key].error)); }
        }
      }
      if key in inflight { return Join(inflight[key]); }
      inflight := inflight[key := flight];
      reply := Own(cached);
    }

    method StoreResult(key: string, flight: nat, cached: Option<Entry>, fetched: Fetched, serial: nat, now: real, ttl: int, grace: int)
      returns (result: Result)
      requires ValidOrder(State())
      modifies this
      ensures var e := EntryFor(cached, fetched, serial, now, ttl, grace);
        State() == Store(old(State()), key, flight, e) && result == Result(e.user, e.error)
      ensures ValidOrder(State())
      ensures fetched.Success? ==> result == Result(Some(Profile(serial, now + ttl as real + grace as real)), None)
      ensures fetched == Failure(Expired) ==> result == Result(None, Some(Expired))
      ensures fetched.Failure? && !fetched.error.Expired? ==>
        result == if cached.Some? && cached.value.user.Some? && now < cached.value.discardAt then Result(cached.value.user, Some(Transient))
                  else Result(None, Some(NoCache))
    {
      var e := EntryFor(cached, fetched, serial, now, ttl, grace);
      PutValid(State(), key, e);
      if key in inflight && inflight[key] == flight {
        order := Without(order, key) + [key];
        entries := entries[key := e];
        ghost var put := State();
        while |order| > CACHE_LIMIT
          invariant DropOldest(State()) == DropOldest(put)
          decreases |order|
        {
          var oldest := order[0];
          order, entries := order[1..], entries - {oldest};
        }
      }
      result := Result(e.user, e.error);
    }

    method FinishFlight(key: string, flight: nat)
      requires ValidOrder(State())
      modifies this
      ensures State() == Finish(old(State()), key, flight) && ValidOrder(State())
    {
      if key in inflight && inflight[key] == flight { inflight := inflight - {key}; }
    }

    method ClearKey(key: string)
      requires ValidOrder(State())
      modifies this
      ensures State() == Clear(old(State()), key) && ValidOrder(State())
    {
      DeleteValid(State(), key);
      order, entries := Without(order, key), entries - {key};
      inflight := inflight - {key};
    }
  }
}
