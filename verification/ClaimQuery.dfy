/** The claim query of `_claim_available_tasks`: ranks each owner's queued tasks
    by id, keeps the ranks the owner has room for, and takes the first `slots`
    in (created_at, id) order.  Compared with the plain greedy scan of the whole
    queue that it stands for. */
module ClaimQuery {
  import opened Collections
  import opened Lifecycle
  import opened TaskRows

  datatype Candidate = Candidate(id: TaskId, owner: string, createdAt: int)

  predicate Before(a: Candidate, b: Candidate) {
    a.createdAt < b.createdAt || (a.createdAt == b.createdAt && a.id < b.id)
  }

  /** The unmanaged queued tasks in (created_at, id) order; ids are unique. */
  ghost predicate IsQueue(q: seq<Candidate>) {
    forall i, j :: 0 <= i < j < |q| ==> Before(q[i], q[j]) && q[i].id != q[j].id
  }

  ghost predicate UniqueIds(q: seq<Candidate>) { forall i, j :: 0 <= i < j < |q| ==> q[i].id != q[j].id }

  /** In each owner's own queue, created_at is non-decreasing in id. */
  ghost predicate CreatedInIdOrder(q: seq<Candidate>) {
    forall i, j :: 0 <= i < j < |q| && q[i].owner == q[j].owner ==> q[i].id < q[j].id
  }

  function IdsOf(q: seq<Candidate>, owner: string): set<TaskId> {
    set c | c in q && c.owner == owner :: c.id
  }

  function UpTo(ids: set<TaskId>, id: TaskId): set<TaskId> { set x | x in ids && x <= id }

  /** ROW_NUMBER() OVER (PARTITION BY owner ORDER BY id). */
  function Rank(q: seq<Candidate>, c: Candidate): nat { |UpTo(IdsOf(q, c.owner), c.id)| }

  function Count(running: map<string, nat>, owner: string): nat {
    if owner in running then running[owner] else 0
  }

  function Min(a: int, b: int): int { if a <= b then a else b }

  predicate Keeps(q: seq<Candidate>, running: map<string, nat>, user: nat, slots: nat, c: Candidate) {
    && Count(running, c.owner) < user
    && Rank(q, c) <= Min(user, slots)
    && Rank(q, c) <= user - Count(running, c.owner)
  }

  /** The kept rows from position i on, at most n of them. */
  function Pick(q: seq<Candidate>, running: map<string, nat>, user: nat, slots: nat, i: nat, n: nat): (r: seq<Candidate>)
    requires i <= |q|
    decreases |q| - i
  {
    if i == |q| || n == 0 then []
    else if Keeps(q, running, user, slots, q[i]) then [q[i]] + Pick(q, running, user, slots, i + 1, n - 1)
    else Pick(q, running, user, slots, i + 1, n)
  }

  function FastQuery(q: seq<Candidate>, running: map<string, nat>, user: nat, slots: nat): seq<Candidate> {
    Pick(q, running, user, slots, 0, slots)
  }

  function Bump(running: map<string, nat>, owner: string): map<string, nat> {
    running[owner := Count(running, owner) + 1]
  }

  /** Scan the queue in order; take each task whose owner is below the limit. */
  function Greedy(q: seq<Candidate>, running: map<string, nat>, user: nat, i: nat, n: nat): seq<Candidate>
    requires i <= |q|
    decreases |q| - i
  {
    if i == |q| || n == 0 then []
    else if Count(running, q[i].owner) < user then [q[i]] + Greedy(q, Bump(running, q[i].owner), user, i + 1, n - 1)
    else Greedy(q, running, user, i + 1, n)
  }

  // ---- ranks ------------------------------------------------------------------------

  function Max(ids: set<TaskId>): (m: TaskId)
    requires ids != {}
    ensures m in ids && forall x :: x in ids ==> x <= m
  {
    MaxExists(ids);
    var m :| m in ids && forall x :: x in ids ==> x <= m;
    m
  }

  lemma {:induction false} MaxExists(ids: set<TaskId>)
    requires ids != {}
    ensures exists m :: m in ids && forall x :: x in ids ==> x <= m
  {
    var a :| a in ids;
    if ids != {a} {
      var rest := ids - {a};
      assert rest != {};
      MaxExists(rest);
      var m :| m in rest && forall x :: x in rest ==> x <= m;
      var top := if a <= m then m else a;
      assert forall x :: x in ids ==> x == a || x in rest;
      assert top in ids && forall x :: x in ids ==> x <= top;
    }
  }

  function Low(ids: set<TaskId>, m: nat): set<TaskId> { set x | x in ids && |UpTo(ids, x)| <= m }

  /** Exactly the m smallest ids have rank at most m. */
  lemma {:induction false} LowSize(ids: set<TaskId>, m: nat)
    ensures |Low(ids, m)| == if |ids| <= m then |ids| else m
    decreases |ids|
  {
    if |ids| <= m {
      forall x | x in ids ensures x in Low(ids, m) { SubsetSize(UpTo(ids, x), ids); }
      assert Low(ids, m) == ids;
    } else {
      assert ids != {};
      var top := Max(ids);
      var rest := ids - {top};
      assert UpTo(ids, top) == ids;
      forall x | x in rest ensures UpTo(ids, x) == UpTo(rest, x) { assert x < top; }
      assert Low(ids, m) == Low(rest, m);
      LowSize(rest, m);
    }
  }

  // ---- what the query picks, in any queue --------------------------------------------------

  lemma {:induction false} PickMembers(q: seq<Candidate>, running: map<string, nat>, user: nat, slots: nat, i: nat, n: nat)
    requires i <= |q|
    ensures var r := Pick(q, running, user, slots, i, n);
      && |r| <= n
      && (forall c <- r :: exists j :: i <= j < |q| && c == q[j] && Keeps(q, running, user, slots, c))
      && (|r| < n ==> forall j :: i <= j < |q| && Keeps(q, running, user, slots, q[j]) ==> q[j] in r)
    decreases |q| - i
  {
    if i < |q| && n > 0 {
      PickMembers(q, running, user, slots, i + 1, if Keeps(q, running, user, slots, q[i]) then n - 1 else n);
    }
  }

  lemma {:induction false} PickDistinct(q: seq<Candidate>, running: map<string, nat>, user: nat, slots: nat, i: nat, n: nat)
    requires i <= |q| && IsQueue(q)
    ensures UniqueIds(Pick(q, running, user, slots, i, n))
    decreases |q| - i
  {
    if i < |q| && n > 0 {
      var m := if Keeps(q, running, user, slots, q[i]) then n - 1 else n;
      PickDistinct(q, running, user, slots, i + 1, m);
      PickMembers(q, running, user, slots, i + 1, m);
      var rest := Pick(q, running, user, slots, i + 1, m);
      forall b | 0 <= b < |rest| ensures rest[b].id != q[i].id { assert rest[b] in rest; }
    }
  }

  /** No owner gets more than its room. */
  lemma FastWithinUser(q: seq<Candidate>, running: map<string, nat>, user: nat, slots: nat, owner: string)
    ensures var got := IdsOf(FastQuery(q, running, user, slots), owner);
      got == {} || Count(running, owner) + |got| <= user
  {
    var got := IdsOf(FastQuery(q, running, user, slots), owner);
    PickMembers(q, running, user, slots, 0, slots);
    if x :| x in got {
      var room := user - Count(running, owner);
      var c :| c in FastQuery(q, running, user, slots) && c.owner == owner && c.id == x;
      assert Keeps(q, running, user, slots, c);
      assert room >= 0;
      forall y | y in got ensures y in Low(IdsOf(q, owner), room) {
        var d :| d in FastQuery(q, running, user, slots) && d.owner == owner && d.id == y;
        assert Keeps(q, running, user, slots, d);
      }
      SubsetSize(got, Low(IdsOf(q, owner), room));
      LowSize(IdsOf(q, owner), room);
    }
  }

  function Ids(q: seq<Candidate>): set<TaskId> { set c | c in q :: c.id }

  lemma IdsSize(q: seq<Candidate>)
    ensures |Ids(q)| <= |q|
  {
    if q != [] {
      IdsSize(q[1..]);
      assert q == [q[0]] + q[1..];
      assert Ids(q) == {q[0].id} + Ids(q[1..]);
      SubsetSize({q[0].id} + Ids(q[1..]) - {q[0].id}, Ids(q[1..]));
      assert {q[0].id} + Ids(q[1..]) == {q[0].id} + ({q[0].id} + Ids(q[1..]) - {q[0].id});
    } else {
      assert Ids(q) == {};
    }
  }

  /** A slot left over means every owner still waiting is at its limit, in
      whatever order the tasks were created. */
  lemma LeftoverSlotMeansFull(q: seq<Candidate>, running: map<string, nat>, user: nat, slots: nat, c: Candidate)
    requires IsQueue(q) && c in q
    ensures var r := FastQuery(q, running, user, slots);
      |r| < slots && c !in r ==> Count(running, c.owner) + |IdsOf(r, c.owner)| >= user
  {
    var r := FastQuery(q, running, user, slots);
    if |r| < slots && c !in r && Count(running, c.owner) < user {
      PickMembers(q, running, user, slots, 0, slots);
      var o, room := c.owner, user - Count(running, c.owner);
      var m: nat := Min(Min(user, slots), room);
      assert !Keeps(q, running, user, slots, c);
      assert Rank(q, c) > m;
      SubsetSize(UpTo(IdsOf(q, o), c.id), IdsOf(q, o));
      LowSize(IdsOf(q, o), m);
      forall x | x in Low(IdsOf(q, o), m) ensures x in IdsOf(r, o) {
        var d :| d in q && d.owner == o && d.id == x;
        var j :| 0 <= j < |q| && q[j] == d;
        assert Keeps(q, running, user, slots, q[j]);
      }
      SubsetSize(Low(IdsOf(q, o), m), IdsOf(r, o));
      assert IdsOf(r, o) <= Ids(r);
      SubsetSize(IdsOf(r, o), Ids(r));
      IdsSize(r);
    }
  }

  // ---- the query against the greedy scan -----------------------------------------------------

  /** How many of the first i tasks are the owner's. */
  function Pos(q: seq<Candidate>, i: nat, owner: string): nat
    requires i <= |q|
  {
    if i == 0 then 0 else Pos(q, i - 1, owner) + if q[i - 1].owner == owner then 1 else 0
  }

  function IdsBefore(q: seq<Candidate>, i: nat, owner: string): set<TaskId>
    requires i <= |q|
  {
    set j | 0 <= j < i && q[j].owner == owner :: q[j].id
  }

  lemma {:induction false} PosIsSize(q: seq<Candidate>, i: nat, owner: string)
    requires i <= |q| && UniqueIds(q)
    ensures |IdsBefore(q, i, owner)| == Pos(q, i, owner)
  {
    if i == 0 {
      assert IdsBefore(q, i, owner) == {};
    } else {
      PosIsSize(q, i - 1, owner);
      var before := IdsBefore(q, i - 1, owner);
      assert q[i - 1].id !in before;
      assert IdsBefore(q, i, owner) == before + (if q[i - 1].owner == owner then {q[i - 1].id} else {});
    }
  }

  lemma RankIsPosition(q: seq<Candidate>, i: nat)
    requires i < |q| && IsQueue(q) && CreatedInIdOrder(q)
    ensures Rank(q, q[i]) == Pos(q, i, q[i].owner) + 1
  {
    var o := q[i].owner;
    PosIsSize(q, i + 1, o);
    EarlierIds(q, i, o, UpTo(IdsOf(q, o), q[i].id), IdsBefore(q, i + 1, o));
  }

  lemma EarlierIds(q: seq<Candidate>, i: nat, owner: string, upTo: set<TaskId>, before: set<TaskId>)
    requires i < |q| && IsQueue(q) && CreatedInIdOrder(q) && owner == q[i].owner
    requires upTo == UpTo(IdsOf(q, owner), q[i].id) && before == IdsBefore(q, i + 1, owner)
    ensures upTo == before
  {
    forall x | x in upTo ensures x in before {
      var j :| 0 <= j < |q| && q[j].owner == owner && q[j].id == x;
      assert j <= i;
    }
    forall x | x in before ensures x in upTo {
      var j :| 0 <= j < i + 1 && q[j].owner == owner && q[j].id == x;
      assert q[j] in q && j <= i;
    }
  }

  /** The greedy scan's counters after i tasks, while it still has slots. */
  ghost predicate ScanState(q: seq<Candidate>, running: map<string, nat>, used: map<string, nat>, user: nat, i: nat)
    requires i <= |q|
  {
    forall o :: Count(used, o) == var full := Count(running, o) + Pos(q, i, o);
      if full <= user then full else if Count(running, o) <= user then user else Count(running, o)
  }

  lemma ScanStep(q: seq<Candidate>, running: map<string, nat>, used: map<string, nat>, user: nat, i: nat)
    requires i < |q| && ScanState(q, running, used, user, i)
    ensures Count(used, q[i].owner) < user <==> Count(running, q[i].owner) + Pos(q, i, q[i].owner) < user
    ensures Count(used, q[i].owner) < user ==> ScanState(q, running, Bump(used, q[i].owner), user, i + 1)
    ensures Count(used, q[i].owner) >= user ==> ScanState(q, running, used, user, i + 1)
  {
    assert forall o :: Pos(q, i + 1, o) == Pos(q, i, o) + if q[i].owner == o then 1 else 0;
  }

  /** The scan takes the next task exactly when its rank is within what its
      owner has room for, and so does the query. */
  lemma SameChoice(q: seq<Candidate>, running: map<string, nat>, used: map<string, nat>, user: nat, slots: nat, i: nat, n: nat)
    requires i < |q| && 0 < n <= slots && IsQueue(q) && CreatedInIdOrder(q)
    requires ScanState(q, running, used, user, i) && Count(used, q[i].owner) - Count(running, q[i].owner) <= slots - n
    ensures Count(used, q[i].owner) < user <==> Keeps(q, running, user, slots, q[i])
  {
    RankIsPosition(q, i);
    ScanStep(q, running, used, user, i);
  }

  lemma {:induction false} PickIsGreedy(q: seq<Candidate>, running: map<string, nat>, used: map<string, nat>, user: nat, slots: nat, i: nat, n: nat)
    requires i <= |q| && n <= slots && IsQueue(q) && CreatedInIdOrder(q)
    requires ScanState(q, running, used, user, i)
    requires forall o :: Count(used, o) - Count(running, o) <= slots - n
    ensures Pick(q, running, user, slots, i, n) == Greedy(q, used, user, i, n)
    decreases |q| - i
  {
    if i < |q| && n > 0 {
      var o := q[i].owner;
      SameChoice(q, running, used, user, slots, i, n);
      ScanStep(q, running, used, user, i);
      if Count(used, o) < user {
        PickIsGreedy(q, running, Bump(used, o), user, slots, i + 1, n - 1);
      } else {
        PickIsGreedy(q, running, used, user, slots, i + 1, n);
      }
    }
  }

  lemma FastIsGreedy(q: seq<Candidate>, running: map<string, nat>, user: nat, slots: nat)
    requires IsQueue(q) && CreatedInIdOrder(q)
    ensures FastQuery(q, running, user, slots) == Greedy(q, running, user, 0, slots)
  {
    PickIsGreedy(q, running, running, user, slots, 0, slots);
  }

  lemma {:induction false} GreedyMembers(q: seq<Candidate>, running: map<string, nat>, used: map<string, nat>, user: nat, i: nat, n: nat, j: nat)
    requires i <= j < |q| && |q| - i <= n && IsQueue(q) && ScanState(q, running, used, user, i)
    ensures q[j] in Greedy(q, used, user, i, n) <==> Count(running, q[j].owner) + Pos(q, j, q[j].owner) < user
    decreases |q| - i
  {
    ScanStep(q, running, used, user, i);
    var takes := Count(used, q[i].owner) < user;
    var used', n' := if takes then Bump(used, q[i].owner) else used, if takes then n - 1 else n;
    if j == i {
      GreedyFrom(q, used', user, i + 1, n');
    } else {
      GreedyMembers(q, running, used', user, i + 1, n', j);
      assert q[i].id != q[j].id;
    }
  }

  lemma {:induction false} GreedyFrom(q: seq<Candidate>, used: map<string, nat>, user: nat, i: nat, n: nat)
    requires i <= |q|
    ensures forall c <- Greedy(q, used, user, i, n) :: exists j :: i <= j < |q| && c == q[j]
    decreases |q| - i
  {
    if i < |q| && n > 0 {
      if Count(used, q[i].owner) < user { GreedyFrom(q, Bump(used, q[i].owner), user, i + 1, n - 1); }
      else { GreedyFrom(q, used, user, i + 1, n); }
    }
  }

  lemma {:induction false} PosMonotone(q: seq<Candidate>, i: nat, j: nat, owner: string)
    requires i < j <= |q| && q[i].owner == owner
    ensures Pos(q, i, owner) < Pos(q, j, owner)
  {
    if i + 1 < j { PosMonotone(q, i, j - 1, owner); }
  }

  lemma InversionKeeps(q: seq<Candidate>, running: map<string, nat>, i: nat, j: nat)
    requires IsQueue(q) && i < j < |q| && q[i].owner == q[j].owner && q[i].id > q[j].id
    ensures var user := Count(running, q[i].owner) + Rank(q, q[j]);
      Keeps(q, running, user, |q|, q[j]) && !Keeps(q, running, user, |q|, q[i])
  {
    var ids := IdsOf(q, q[i].owner);
    var low, high := UpTo(ids, q[j].id), UpTo(ids, q[i].id);
    assert q[i] in q && q[j] in q;
    assert q[j].id in low && q[i].id in high && q[i].id !in low;
    SubsetSize(low + {q[i].id}, high);
    SubsetSize({q[j].id}, low);
    SubsetSize(low, Ids(q));
    IdsSize(q);
  }

  /** An inversion in one owner's queue is enough to tell the two apart. */
  lemma InversionDiffers(q: seq<Candidate>, running: map<string, nat>, i: nat, j: nat)
    requires IsQueue(q) && i < j < |q| && q[i].owner == q[j].owner && q[i].id > q[j].id
    ensures var user := Count(running, q[i].owner) + Rank(q, q[j]);
      FastQuery(q, running, user, |q|) != Greedy(q, running, user, 0, |q|)
  {
    var user := Count(running, q[i].owner) + Rank(q, q[j]);
    FastHolds(q, running, user, i, false);
    FastHolds(q, running, user, j, true);
    InversionKeeps(q, running, i, j);
    GreedyMembers(q, running, running, user, 0, |q|, i);
    GreedyMembers(q, running, running, user, 0, |q|, j);
    PosMonotone(q, i, j, q[i].owner);
  }

  lemma FastHolds(q: seq<Candidate>, running: map<string, nat>, user: nat, i: nat, kept: bool)
    requires i < |q|
    ensures kept == Keeps(q, running, user, |q|, q[i]) ==> kept == (q[i] in FastQuery(q, running, user, |q|))
  {
    PickMembers(q, running, user, |q|, 0, |q|);
    PickAll(q, running, user, |q|, 0, |q|);
  }

  lemma {:induction false} PickAll(q: seq<Candidate>, running: map<string, nat>, user: nat, slots: nat, i: nat, n: nat)
    requires i <= |q| && |q| - i <= n
    ensures forall j :: i <= j < |q| && Keeps(q, running, user, slots, q[j]) ==> q[j] in Pick(q, running, user, slots, i, n)
    decreases |q| - i
  {
    if i < |q| {
      PickAll(q, running, user, slots, i + 1, if Keeps(q, running, user, slots, q[i]) then n - 1 else n);
    }
  }

  /** The query stands for the greedy scan under every limit exactly when each
      owner's tasks were created in id order. */
  lemma FastIsGreedyIff(q: seq<Candidate>, running: map<string, nat>)
    requires IsQueue(q)
    ensures (forall user: nat, slots: nat :: FastQuery(q, running, user, slots) == Greedy(q, running, user, 0, slots))
      <==> CreatedInIdOrder(q)
  {
    if CreatedInIdOrder(q) {
      forall user: nat, slots: nat ensures FastQuery(q, running, user, slots) == Greedy(q, running, user, 0, slots) {
        FastIsGreedy(q, running, user, slots);
      }
    } else {
      var i, j :| 0 <= i < j < |q| && q[i].owner == q[j].owner && q[i].id >= q[j].id;
      InversionDiffers(q, running, i, j);
    }
  }

  // ---- the query inside the claim transaction -------------------------------------------------

  /** q lists exactly the unmanaged queued rows. */
  ghost predicate QueueOf(q: seq<Candidate>, rows: map<TaskId, Row>, managed: set<TaskId>) {
    && IsQueue(q)
    && (forall c <- q :: c.id in rows && rows[c.id].status.Queued? && c.id !in managed
          && c.owner == rows[c.id].owner && c.createdAt == rows[c.id].createdAt)
    && (forall t :: t in rows && rows[t].status.Queued? && t !in managed ==> t in Ids(q))
  }

  function IdSeq(q: seq<Candidate>): (s: seq<TaskId>)
    ensures |s| == |q| && forall i :: 0 <= i < |s| ==> s[i] == q[i].id
  {
    if q == [] then [] else [q[0].id] + IdSeq(q[1..])
  }

  /** The tasks the query returns satisfy what the protocol asks of a claim. */
  lemma QueryIsValidClaim(q: seq<Candidate>, rows: map<TaskId, Row>, managed: set<TaskId>, limits: Limits, room: nat,
                          running: map<string, nat>, slots: nat)
    requires QueueOf(q, rows, managed)
    requires forall o :: Count(running, o) == |BusyOf(rows, managed, o)|
    requires slots > 0 ==> slots <= room && slots + |Busy(rows, managed)| <= limits.total
    ensures ValidClaim(rows, managed, limits, room, IdSeq(FastQuery(q, running, limits.user, slots)))
  {
    var r := FastQuery(q, running, limits.user, slots);
    var chosen := IdSeq(r);
    PickMembers(q, running, limits.user, slots, 0, slots);
    PickDistinct(q, running, limits.user, slots, 0, slots);
    forall t | t in chosen
      ensures t in rows && rows[t].status.Queued? && t !in managed
      ensures |BusyOf(rows, managed, rows[t].owner)| + |ChosenOf(rows, chosen, rows[t].owner)| <= limits.user
    {
      var k :| 0 <= k < |chosen| && chosen[k] == t;
      assert r[k] in r && r[k] in q;
      var o := r[k].owner;
      FastWithinUser(q, running, limits.user, slots, o);
      assert t in IdsOf(r, o);
      forall x | x in ChosenOf(rows, chosen, o) ensures x in IdsOf(r, o) {
        var m :| 0 <= m < |chosen| && chosen[m] == x;
        assert r[m] in r && r[m] in q;
      }
      SubsetSize(ChosenOf(rows, chosen, o), IdsOf(r, o));
    }
  }

  /** The Python loop over the returned rows: its own re-check of the user limit
      never skips a row, so every row the query returns is claimed, in order. */
  method ClaimReturned(q: seq<Candidate>, running: map<string, nat>, user: nat, slots: nat) returns (claimed: seq<Candidate>)
    requires IsQueue(q)
    ensures claimed == FastQuery(q, running, user, slots)
  {
    var queued := FastQuery(q, running, user, slots);
    claimed := [];
    var byOwner: map<string, nat> := map[];
    var k := 0;
    PickMembers(q, running, user, slots, 0, slots);
    while k < |queued|
      invariant 0 <= k <= |queued| && claimed == queued[..k]
      invariant forall o :: (if o in byOwner then byOwner[o] else Count(running, o)) == Count(running, o) + Pos(queued, k, o)
    {
      if |claimed| >= slots { break; }
      var task := queued[k];
      var owner := task.owner;
      if owner !in byOwner { byOwner := byOwner[owner := Count(running, owner)]; }
      RecheckPasses(q, running, user, slots, k);
      if byOwner[owner] >= user { k := k + 1; continue; }
      claimed := claimed + [task];
      assert queued[..k + 1] == queued[..k] + [task];
      byOwner := byOwner[owner := byOwner[owner] + 1];
      k := k + 1;
    }
    assert queued[..|queued|] == queued;
  }

  lemma RecheckPasses(q: seq<Candidate>, running: map<string, nat>, user: nat, slots: nat, k: nat)
    requires IsQueue(q) && k < |FastQuery(q, running, user, slots)|
    ensures var r := FastQuery(q, running, user, slots); Count(running, r[k].owner) + Pos(r, k, r[k].owner) < user
  {
    var r := FastQuery(q, running, user, slots);
    var o := r[k].owner;
    PickDistinct(q, running, user, slots, 0, slots);
    FastWithinUser(q, running, user, slots, o);
    PosIsSize(r, k + 1, o);
    assert r[k] in r;
    forall x | x in IdsBefore(r, k + 1, o) ensures x in IdsOf(r, o) {
      var m :| 0 <= m < k + 1 && r[m].owner == o && r[m].id == x;
      assert r[m] in r;
    }
    SubsetSize(IdsBefore(r, k + 1, o), IdsOf(r, o));
    assert r[k].id in IdsOf(r, o);
  }
}
