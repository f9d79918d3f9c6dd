/** The background refresh of report statistics (app/reporting/statistics.py):
    batches that follow a cursor over the task ids. */
module StatsScan {
  import opened Options

  const SCAN_BATCH_SIZE: nat := 512
  const BACKGROUND_BATCH_SIZE: nat := 100

  /** Task ids in increasing order, all of them positive. */
  ghost predicate Ordered(ids: seq<nat>) {
    (forall i, k :: 0 <= i < k < |ids| ==> ids[i] < ids[k]) && forall i :: 0 <= i < |ids| ==> ids[i] > 0
  }

  /** min(100, max(1, int(limit))), or 100 when that is not a number. */
  function BatchSize(limit: Option<int>): (n: nat)
    ensures 1 <= n <= 100 && (limit.None? ==> n == 100)
    ensures limit.Some? ==> (limit.value <= n || n == 100) && (limit.value >= n || n == 1)
  {
    if limit.None? then BACKGROUND_BATCH_SIZE
    else if limit.value < 1 then 1
    else if limit.value > BACKGROUND_BATCH_SIZE then BACKGROUND_BATCH_SIZE else limit.value
  }

  /** How many ids are at or before the cursor. */
  function Passed(ids: seq<nat>, cursor: nat): (n: nat)
    ensures n <= |ids| && (n < |ids| ==> ids[n] > cursor)
    ensures forall i :: 0 <= i < n ==> ids[i] <= cursor
  {
    if ids == [] || ids[0] > cursor then 0 else 1 + Passed(ids[1..], cursor)
  }

  /** The first 512 ids after the cursor. */
  function Window(ids: seq<nat>, cursor: nat): seq<nat> {
    var n := Passed(ids, cursor);
    if |ids| - n <= SCAN_BATCH_SIZE then ids[n..] else ids[n..n + SCAN_BATCH_SIZE]
  }

  /** The stale ones among them, in order. */
  function StaleIn(window: seq<nat>, stale: set<nat>): (r: seq<nat>)
    ensures forall id :: id in r <==> id in window && id in stale
    ensures |r| <= |window|
  {
    if window == [] then [] else (if window[0] in stale then [window[0]] else []) + StaleIn(window[1..], stale)
  }

  lemma {:induction false} StaleOrdered(window: seq<nat>, stale: set<nat>)
    requires Ordered(window)
    ensures Ordered(StaleIn(window, stale))
  {
    if window != [] {
      StaleOrdered(window[1..], stale);
      var rest := StaleIn(window[1..], stale);
      forall k | 0 <= k < |rest| ensures rest[k] > window[0] {
        assert rest[k] in window[1..];
      }
    }
  }

  /** No id up to the cursor is stale. */
  ghost predicate FreshTo(ids: seq<nat>, stale: set<nat>, cursor: nat) {
    forall id <- ids :: id <= cursor ==> id !in stale
  }

  lemma PassedAt(ids: seq<nat>, cursor: nat, i: nat)
    requires Ordered(ids) && i < |ids|
    ensures ids[i] > cursor <==> i >= Passed(ids, cursor)
  {
    var n := Passed(ids, cursor);
    if n < i { assert ids[n] < ids[i]; }
  }

  lemma SliceOrdered(ids: seq<nat>, low: nat, high: nat)
    requires Ordered(ids) && low <= high <= |ids|
    ensures Ordered(ids[low..high])
  {
  }

  lemma WindowMeans(ids: seq<nat>, cursor: nat)
    requires Ordered(ids) && Window(ids, cursor) != []
    ensures Ordered(Window(ids, cursor))
    ensures var w := Window(ids, cursor); var last := w[|w| - 1];
      last > cursor && last in ids && forall id <- ids :: cursor < id <= last <==> id in w
  {
    var n := Passed(ids, cursor);
    var w := Window(ids, cursor);
    var end := n + |w|;
    assert w == ids[n..end];
    SliceOrdered(ids, n, end);
    PassedAt(ids, cursor, end - 1);
    assert w[|w| - 1] == ids[end - 1];
    forall id | id in ids ensures cursor < id <= ids[end - 1] <==> id in w {
      var i :| 0 <= i < |ids| && ids[i] == id;
      PassedAt(ids, cursor, i);
      InSlice(ids, n, end, i);
    }
  }

  lemma InSlice(ids: seq<nat>, low: nat, high: nat, i: nat)
    requires Ordered(ids) && low < high <= |ids| && i < |ids|
    ensures ids[i] in ids[low..high] <==> low <= i < high
    ensures ids[i] <= ids[high - 1] <==> i < high
  {
    var s := ids[low..high];
    if low <= i < high { assert s[i - low] == ids[i]; }
    if ids[i] in s {
      var k :| 0 <= k < |s| && s[k] == ids[i];
      assert ids[low + k] == ids[i];
    }
  }

  /** The cursor after a batch over a window with these stale ids. */
  function NextCursor(window: seq<nat>, found: seq<nat>, batch: nat): nat
    requires window != [] && batch > 0
  {
    if |found| > batch then found[batch - 1] else window[|window| - 1]
  }

  /** More stale ids than fit: the first of them are done, and none before the last of those is left. */
  lemma FullBatch(found: seq<nat>, batch: nat, id: nat)
    requires 0 < batch < |found| && Ordered(found)
    ensures id in found && id <= found[batch - 1] <==> id in found[..batch]
  {
    if id in found && id <= found[batch - 1] {
      var i :| 0 <= i < |found| && found[i] == id;
      assert found[..batch][i] == id;
    }
    if id in found[..batch] {
      var i :| 0 <= i < batch && found[..batch][i] == id;
      assert found[i] == id;
    }
  }

  lemma BatchIsFresh(ids: seq<nat>, stale: set<nat>, cursor: nat, batch: nat)
    requires Ordered(ids) && Window(ids, cursor) != [] && batch > 0
    ensures var window := Window(ids, cursor);
      var found := StaleIn(window, stale);
      var next := NextCursor(window, found, batch);
      var done := found[..if |found| > batch then batch else |found|];
      && next > cursor && next in ids
      && (forall id <- ids :: cursor < id <= next && id in stale ==> id in done)
      && (forall id <- done :: id in stale && cursor < id <= next)
  {
    WindowMeans(ids, cursor);
    var window := Window(ids, cursor);
    var found := StaleIn(window, stale);
    StaleOrdered(window, stale);
    if |found| > batch {
      assert found[batch - 1] in found;
      forall id ensures id in found && id <= found[batch - 1] <==> id in found[..batch] { FullBatch(found, batch, id); }
    } else {
      assert found[..|found|] == found && window[|window| - 1] in window;
    }
  }

  /** `refresh_stale_report_stats_batch`, over rows that do not otherwise change:
      refreshes stale rows just after the cursor, and moves it past nothing stale. */
  method RefreshBatch(ids: seq<nat>, stale: set<nat>, cursor: nat, limit: Option<int>) returns (left: set<nat>, next: nat, count: nat)
    requires Ordered(ids)
    ensures next == 0 <==> forall id <- ids :: id <= cursor
    ensures next == 0 ==> left == stale && count == 0
    ensures next != 0 ==> next > cursor && next in ids
    ensures left <= stale && forall id <- stale - left :: cursor < id <= next
    ensures count <= BatchSize(limit)
    ensures next != 0 && FreshTo(ids, stale, cursor) ==> FreshTo(ids, left, next)
  {
    var batch := BatchSize(limit);
    var window := Window(ids, cursor);
    if window == [] { return stale, 0, 0; }
    BatchIsFresh(ids, stale, cursor, batch);
    assert ids[Passed(ids, cursor)] in ids;
    var found := StaleIn(window, stale);
    var selected := found[..if |found| > batch then batch else |found|];
    left := stale - (set id | id in selected);
    next := NextCursor(window, found, batch);
    count := |selected|;
  }

  /** Ids after the cursor. */
  function Remaining(ids: seq<nat>, cursor: nat): nat { |ids| - Passed(ids, cursor) }

  lemma RemainingShrinks(ids: seq<nat>, cursor: nat, next: nat)
    requires Ordered(ids) && next > cursor && next in ids
    ensures Remaining(ids, next) < Remaining(ids, cursor)
  {
    var i :| 0 <= i < |ids| && ids[i] == next;
    assert i < Passed(ids, next) && Passed(ids, cursor) <= i;
  }

  /** Batches until the cursor returns to the start. The cursor moves forward
      every time, so there are at most as many as there are ids after it, and
      one more. */
  method RunPass(ids: seq<nat>, stale: set<nat>, cursor: nat, limit: Option<int>) returns (left: set<nat>, batches: nat)
    requires Ordered(ids)
    ensures left <= stale && batches <= Remaining(ids, cursor) + 1
    ensures FreshTo(ids, stale, cursor) ==> forall id <- ids :: id !in left
  {
    left, batches := stale, 0;
    var at := cursor;
    while true
      invariant left <= stale && batches + Remaining(ids, at) <= Remaining(ids, cursor)
      invariant FreshTo(ids, stale, cursor) ==> FreshTo(ids, left, at)
      decreases Remaining(ids, at)
    {
      ghost var before := at;
      var next, count;
      left, next, count := RefreshBatch(ids, left, at, limit);
      batches := batches + 1;
      if next == 0 { return; }
      RemainingShrinks(ids, before, next);
      at := next;
    }
  }

  lemma NothingBeforeZero(ids: seq<nat>, stale: set<nat>)
    requires Ordered(ids)
    ensures FreshTo(ids, stale, 0)
  {
    forall id | id in ids ensures id > 0 {
      var i :| 0 <= i < |ids| && ids[i] == id;
    }
  }

  /** Wherever the cursor stands, one pass to the end and one full pass leave no
      statistics stale, in at most twice as many batches as there are tasks, and two. */
  method RefreshAll(ids: seq<nat>, stale: set<nat>, cursor: nat, limit: Option<int>) returns (left: set<nat>, batches: nat)
    requires Ordered(ids)
    ensures left <= stale && (forall id <- ids :: id !in left) && batches <= 2 * |ids| + 2
  {
    var first, second;
    left, first := RunPass(ids, stale, cursor, limit);
    NothingBeforeZero(ids, left);
    left, second := RunPass(ids, left, 0, limit);
    batches := first + second;
  }
}
