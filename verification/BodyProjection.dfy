/** Projection of an extracted document onto its body text
    (app/checks/text_content.py): edits replace stretches of the source, and a
    table of segments leads back from body positions to source positions. */
module BodyProjection {
  import StableSort

  datatype Edit = Edit(start: nat, end: nat, replacement: string)

  datatype Segment = Segment(start: nat, end: nat, sourceStart: nat, sourceEnd: nat)

  datatype View = View(source: string, text: string, segments: seq<Segment>)

  ghost predicate EditsOk(source: string, edits: seq<Edit>) {
    forall e <- edits :: e.start <= e.end <= |source|
  }

  // ---- sorted(edits, key=(start, -end)) -------------------------------------------------

  predicate NotAfter(a: Edit, b: Edit) {
    a.start < b.start || (a.start == b.start && a.end >= b.end)
  }

  ghost predicate Sorted(s: seq<Edit>) { StableSort.Sorted(NotAfter, s) }

  function SortEdits(edits: seq<Edit>): seq<Edit> { StableSort.Sort(NotAfter, edits) }

  lemma SortedEditsOk(source: string, edits: seq<Edit>)
    requires EditsOk(source, edits)
    ensures EditsOk(source, SortEdits(edits)) && Sorted(SortEdits(edits))
  {
    StableSort.SortSorts(NotAfter, edits);
  }

  // ---- what the projection means -----------------------------------------------------------

  /** The edits a left-to-right pass from `position` applies. */
  function Applied(edits: seq<Edit>, position: nat): seq<Edit> {
    if edits == [] then []
    else if edits[0].start < position then Applied(edits[1..], position)
    else [edits[0]] + Applied(edits[1..], edits[0].end)
  }

  /** The body: source text with each applied edit's stretch replaced. */
  function Body(source: string, applied: seq<Edit>, position: nat): string
    requires Chain(source, applied, position)
    decreases |applied|
  {
    if applied == [] then source[position..]
    else source[position..applied[0].start] + applied[0].replacement + Body(source, applied[1..], applied[0].end)
  }

  /** Edits that follow one another inside the source, from `position` on. */
  predicate Chain(source: string, applied: seq<Edit>, position: nat) {
    if applied == [] then position <= |source|
    else position <= applied[0].start <= applied[0].end <= |source| && Chain(source, applied[1..], applied[0].end)
  }

  lemma {:induction false} AppliedChains(source: string, edits: seq<Edit>, position: nat)
    requires EditsOk(source, edits) && position <= |source|
    ensures Chain(source, Applied(edits, position), position)
    ensures forall e <- Applied(edits, position) :: e in edits
  {
    if edits != [] {
      assert edits[0] in edits;
      AppliedChains(source, edits[1..], if edits[0].start < position then position else edits[0].end);
    }
  }

  /** Every edit that is not applied starts strictly inside an applied one that
      comes before it in the sorted order. */
  lemma {:induction false} SkippedOverlaps(source: string, edits: seq<Edit>, position: nat, e: Edit)
    requires EditsOk(source, edits) && Sorted(edits) && e in edits
    ensures e in Applied(edits, position) || e.start < position
         || exists a :: a in Applied(edits, position) && NotAfter(a, e) && a.start <= e.start < a.end
  {
    var first := edits[0];
    var rest := edits[1..];
    if first.start < position {
      if e != first { SkippedOverlaps(source, rest, position, e); }
    } else if e != first {
      SkippedOverlaps(source, rest, first.end, e);
      if e !in Applied(rest, first.end) && e.start < first.end {
        var k :| 0 < k < |edits| && edits[k] == e;
        assert first in Applied(edits, position) && NotAfter(first, e);
      }
    }
  }

  // ---- the segment table ---------------------------------------------------------------------

  /** Non-empty segments partition the body, over ordered disjoint source intervals. */
  ghost predicate TableOk(segments: seq<Segment>, length: nat, sourceLimit: nat) {
    && (forall k :: 0 <= k < |segments| ==> segments[k].start < segments[k].end && segments[k].sourceStart <= segments[k].sourceEnd <= sourceLimit)
    && (forall k :: 0 < k < |segments| ==> segments[k - 1].end == segments[k].start)
    && (forall i, k :: 0 <= i < k < |segments| ==> segments[i].end <= segments[k].start && segments[i].sourceEnd <= segments[k].sourceStart)
    && (if segments == [] then length == 0 else segments[0].start == 0 && segments[|segments| - 1].end == length)
  }

  ghost predicate ViewOk(v: View) { TableOk(v.segments, |v.text|, |v.source|) }

  /** A segment copies its source stretch. */
  predicate Copies(v: View, k: nat)
    requires k < |v.segments|
  {
    var s := v.segments[k];
    && s.start <= s.end <= |v.text| && s.sourceStart <= s.sourceEnd <= |v.source|
    && v.text[s.start..s.end] == v.source[s.sourceStart..s.sourceEnd]
  }

  /** A segment stands for one applied edit. */
  ghost predicate Replaces(v: View, k: nat, applied: seq<Edit>)
    requires k < |v.segments|
  {
    var s := v.segments[k];
    && s.start <= s.end <= |v.text|
    && exists e :: e in applied && e.start == s.sourceStart && e.end == s.sourceEnd && e.replacement == v.text[s.start..s.end]
  }

  ghost predicate SegmentsExplained(v: View, applied: seq<Edit>) {
    forall k :: 0 <= k < |v.segments| ==> Copies(v, k) || Replaces(v, k, applied)
  }

  function Extend(v: View, value: string, start: nat, end: nat): View {
    if value == "" then v
    else v.(text := v.text + value, segments := v.segments + [Segment(|v.text|, |v.text| + |value|, start, end)])
  }

  lemma AppendSegment(segments: seq<Segment>, length: nat, limit: nat, last: Segment)
    requires TableOk(segments, length, limit)
    requires last.start == length < last.end && limit <= last.sourceStart <= last.sourceEnd
    ensures TableOk(segments + [last], last.end, last.sourceEnd)
  {
    var n := |segments|;
    if n > 0 {
      assert segments[n - 1].end == length && segments[n - 1].sourceEnd <= limit;
      forall i | 0 <= i < n ensures segments[i].end <= length && segments[i].sourceEnd <= limit {
        if i < n - 1 { assert segments[i].end <= segments[n - 1].start; }
      }
    }
  }

  lemma WidenTable(segments: seq<Segment>, length: nat, limit: nat, wider: nat)
    requires TableOk(segments, length, limit) && limit <= wider
    ensures TableOk(segments, length, wider)
  {
  }

  lemma ExtendTable(v: View, value: string, start: nat, end: nat, limit: nat)
    requires TableOk(v.segments, |v.text|, limit) && limit <= start <= end
    ensures TableOk(Extend(v, value, start, end).segments, |Extend(v, value, start, end).text|, end)
  {
    var w := Extend(v, value, start, end);
    if value == "" {
      WidenTable(v.segments, |v.text|, limit, end);
    } else {
      AppendSegment(v.segments, |v.text|, limit, Segment(|v.text|, |v.text| + |value|, start, end));
      assert w.segments == v.segments + [Segment(|v.text|, |v.text| + |value|, start, end)];
    }
  }

  lemma ExtendExplained(v: View, value: string, start: nat, end: nat, applied: seq<Edit>, more: seq<Edit>)
    requires SegmentsExplained(v, applied) && start <= end <= |v.source|
    requires forall e <- applied :: e in more
    requires value == v.source[start..end] || Edit(start, end, value) in more
    ensures SegmentsExplained(Extend(v, value, start, end), more)
  {
    var w := Extend(v, value, start, end);
    forall k | 0 <= k < |w.segments| ensures Copies(w, k) || Replaces(w, k, more) {
      var s := w.segments[k];
      if k < |v.segments| {
        assert Copies(v, k) || Replaces(v, k, applied);
        assert w.text[s.start..s.end] == v.text[s.start..s.end];
      } else {
        assert w.text[s.start..s.end] == value;
      }
    }
  }

  /** Between two edits: what is done is tabled, and the rest of the body is
      what the remaining edits make of the rest of the source. */
  ghost predicate Progress(v: View, source: string, left: seq<Edit>, position: nat, applied: seq<Edit>) {
    && v.source == source && position <= |source|
    && Chain(source, left, position) && Chain(source, applied, 0)
    && (forall k :: 0 <= k < |left| ==> left[k] in applied)
    && v.text + Body(source, left, position) == Body(source, applied, 0)
    && TableOk(v.segments, |v.text|, position) && SegmentsExplained(v, applied)
  }

  function Append(v: View, source: string, position: nat, e: Edit): View
    requires position <= e.start <= |source|
  {
    Extend(Extend(v, source[position..e.start], position, e.start), e.replacement, e.start, e.end)
  }

  lemma AppendText(v: View, source: string, left: seq<Edit>, position: nat)
    requires left != [] && Chain(source, left, position)
    ensures Append(v, source, position, left[0]).text + Body(source, left[1..], left[0].end) == v.text + Body(source, left, position)
    ensures Append(v, source, position, left[0]).source == v.source
  {
    var e := left[0];
    var gap := source[position..e.start];
    ExtendText(v, gap, position, e.start);
    ExtendText(Extend(v, gap, position, e.start), e.replacement, e.start, e.end);
    Regroup(v.text, gap, e.replacement, Body(source, left[1..], e.end));
  }

  lemma ExtendText(v: View, value: string, start: nat, end: nat)
    ensures Extend(v, value, start, end).text == v.text + value && Extend(v, value, start, end).source == v.source
  {
    assert v.text + "" == v.text;
  }

  lemma Regroup(a: string, b: string, c: string, d: string)
    ensures a + b + c + d == a + (b + c + d)
  {
  }

  lemma AppendProgress(v: View, source: string, left: seq<Edit>, position: nat, applied: seq<Edit>)
    requires left != [] && Progress(v, source, left, position, applied)
    ensures Progress(Append(v, source, position, left[0]), source, left[1..], left[0].end, applied)
  {
    var e := left[0];
    assert e in applied && e == Edit(e.start, e.end, e.replacement);
    var gap := source[position..e.start];
    var mid := Extend(v, gap, position, e.start);
    ExtendTable(v, gap, position, e.start, position);
    ExtendExplained(v, gap, position, e.start, applied, applied);
    ExtendTable(mid, e.replacement, e.start, e.end, e.start);
    ExtendExplained(mid, e.replacement, e.start, e.end, applied, applied);
    AppendText(v, source, left, position);
  }

  lemma FinishProgress(v: View, source: string, position: nat, applied: seq<Edit>)
    requires Progress(v, source, [], position, applied)
    ensures var w := Extend(v, source[position..], position, |source|);
      w.source == source && ViewOk(w) && SegmentsExplained(w, applied) && w.text == Body(source, applied, 0)
  {
    assert source[position..] == source[position..|source|];
    ExtendTable(v, source[position..], position, |source|, position);
    ExtendExplained(v, source[position..], position, |source|, applied, applied);
  }

  lemma BeginProgress(source: string, sorted: seq<Edit>)
    requires EditsOk(source, sorted)
    ensures var applied := Applied(sorted, 0); Progress(View(source, "", []), source, applied, 0, applied) && Chain(source, applied, 0)
  {
    AppliedChains(source, sorted, 0);
    assert "" + Body(source, Applied(sorted, 0), 0) == Body(source, Applied(sorted, 0), 0);
  }

  /** One edit: it is passed over when it starts inside what is already done. */
  method ProjectEdit(v: View, source: string, position: nat, e: Edit, ghost left: seq<Edit>, ghost applied: seq<Edit>)
    returns (w: View, next: nat)
    requires left != [] && left[0] == e && Progress(v, source, Applied(left, position), position, applied)
    ensures Progress(w, source, Applied(left[1..], next), next, applied)
  {
    w, next := v, position;
    if e.start >= position {
      AppendProgress(v, source, Applied(left, position), position, applied);
      w, next := Append(v, source, position, e), e.end;
    }
  }

  /** The pass over the sorted edits. */
  method ProjectSorted(source: string, sorted: seq<Edit>) returns (v: View)
    requires EditsOk(source, sorted)
    ensures var applied := Applied(sorted, 0);
      && v.source == source && ViewOk(v) && SegmentsExplained(v, applied)
      && Chain(source, applied, 0) && v.text == Body(source, applied, 0)
  {
    ghost var applied := Applied(sorted, 0);
    BeginProgress(source, sorted);
    v := View(source, "", []);
    var sourcePosition: nat := 0;
    var i := 0;
    assert sorted[0..] == sorted;
    while i < |sorted|
      invariant 0 <= i <= |sorted|
      invariant Progress(v, source, Applied(sorted[i..], sourcePosition), sourcePosition, applied)
    {
      assert sorted[i..][1..] == sorted[i + 1..];
      v, sourcePosition := ProjectEdit(v, source, sourcePosition, sorted[i], sorted[i..], applied);
      i := i + 1;
    }
    assert sorted[i..] == [];
    FinishProgress(v, source, sourcePosition, applied);
    v := Extend(v, source[sourcePosition..], sourcePosition, |source|);
  }

  /** The projection: the body is the source with exactly the applied edits
      made, and the table partitions and explains it. */
  method ProjectBody(source: string, edits: seq<Edit>) returns (v: View)
    requires EditsOk(source, edits)
    ensures var applied := Applied(SortEdits(edits), 0);
      && v.source == source && ViewOk(v) && SegmentsExplained(v, applied)
      && Chain(source, applied, 0) && v.text == Body(source, applied, 0)
  {
    SortedEditsOk(source, edits);
    v := ProjectSorted(source, SortEdits(edits));
  }

  // ---- back to the source ------------------------------------------------------------------------

  /** bisect_right(starts, x) - 1 : the last segment starting at or before x. */
  function SegmentAt(segments: seq<Segment>, x: nat): (k: nat)
    requires segments != [] && segments[0].start == 0
    ensures k < |segments| && segments[k].start <= x
    ensures k + 1 < |segments| ==> forall j :: k < j < |segments| ==> segments[j].start > x
  {
    var n := |segments| - 1;
    if n == 0 || segments[n].start <= x then n else SegmentAt(segments[..n], x)
  }

  predicate Linear(s: Segment) { s.end - s.start == s.sourceEnd - s.sourceStart }

  function StartBoundary(v: View, position: nat): int
    requires v.segments != [] && v.segments[0].start == 0
  {
    var s := v.segments[SegmentAt(v.segments, position)];
    if Linear(s) then s.sourceStart + position - s.start else s.sourceStart
  }

  function EndBoundary(v: View, position: nat): int
    requires position > 0 && v.segments != [] && v.segments[0].start == 0
  {
    var s := v.segments[SegmentAt(v.segments, position - 1)];
    if Linear(s) then s.sourceStart + position - s.start else s.sourceEnd
  }

  function SourceSpan(v: View, start: nat, end: nat): (int, int)
    requires end > 0 && v.segments != [] && v.segments[0].start == 0
  {
    (StartBoundary(v, start), EndBoundary(v, end))
  }

  lemma TableOrder(v: View, i: nat, k: nat)
    requires ViewOk(v) && i < |v.segments| && k < |v.segments|
    ensures i < k ==> v.segments[i].end <= v.segments[k].start && v.segments[i].sourceEnd <= v.segments[k].sourceStart
    ensures k < i ==> v.segments[k].end <= v.segments[i].start && v.segments[k].sourceEnd <= v.segments[i].sourceStart
  {
  }

  lemma SegmentIsUnique(v: View, x: nat, k: nat)
    requires ViewOk(v) && k < |v.segments| && v.segments[k].start <= x < v.segments[k].end
    ensures SegmentAt(v.segments, x) == k
  {
    var j := SegmentAt(v.segments, x);
    TableOrder(v, j, k);
  }

  lemma SegmentCovers(v: View, x: nat)
    requires ViewOk(v) && x < |v.text|
    ensures v.segments != [] && v.segments[0].start == 0
    ensures var s := v.segments[SegmentAt(v.segments, x)]; s.start <= x < s.end
  {
    var k := SegmentAt(v.segments, x);
    if k + 1 < |v.segments| { assert v.segments[k + 1].start > x && v.segments[k].end == v.segments[k + 1].start; }
  }

  /** Every non-empty body span has a source span, inside the source. */
  lemma SpanIsTotal(v: View, start: nat, end: nat)
    requires ViewOk(v) && start < end <= |v.text|
    ensures v.segments != [] && v.segments[0].start == 0
    ensures var (a, b) := SourceSpan(v, start, end); 0 <= a <= b <= |v.source|
  {
    SegmentCovers(v, start);
    SegmentCovers(v, end - 1);
    var i, k := SegmentAt(v.segments, start), SegmentAt(v.segments, end - 1);
    TableOrder(v, i, k);
  }

  lemma BoundariesMonotone(v: View, p: nat, q: nat)
    requires ViewOk(v) && p <= q < |v.text|
    ensures v.segments != [] && v.segments[0].start == 0
    ensures StartBoundary(v, p) <= StartBoundary(v, q)
    ensures EndBoundary(v, p + 1) <= EndBoundary(v, q + 1)
  {
    SegmentCovers(v, p);
    SegmentCovers(v, q);
    var i, k := SegmentAt(v.segments, p), SegmentAt(v.segments, q);
    TableOrder(v, i, k);
  }

  /** Spans that move right in the body move right in the source. */
  lemma SpansMonotone(v: View, start: nat, end: nat, start': nat, end': nat)
    requires ViewOk(v) && start < end && start' < end' <= |v.text| && start <= start' && end <= end'
    ensures v.segments != [] && v.segments[0].start == 0
    ensures SourceSpan(v, start, end).0 <= SourceSpan(v, start', end').0
    ensures SourceSpan(v, start, end).1 <= SourceSpan(v, start', end').1
  {
    StartsMonotone(v, start, start');
    EndsMonotone(v, end, end');
  }

  lemma StartsMonotone(v: View, p: nat, q: nat)
    requires ViewOk(v) && p <= q < |v.text|
    ensures v.segments != [] && v.segments[0].start == 0
    ensures StartBoundary(v, p) <= StartBoundary(v, q)
  {
    BoundariesMonotone(v, p, q);
  }

  lemma EndsMonotone(v: View, p: nat, q: nat)
    requires ViewOk(v) && 0 < p <= q <= |v.text|
    ensures v.segments != [] && v.segments[0].start == 0
    ensures EndBoundary(v, p) <= EndBoundary(v, q)
  {
    BoundariesMonotone(v, p - 1, q - 1);
  }

  lemma LinearSpan(v: View, k: nat, start: nat, end: nat)
    requires ViewOk(v) && k < |v.segments| && Linear(v.segments[k]) && v.segments[k].start <= start < end <= v.segments[k].end
    ensures v.segments != [] && v.segments[0].start == 0
    ensures var shift := v.segments[k].sourceStart - v.segments[k].start;
      SourceSpan(v, start, end) == (start + shift, end + shift) && 0 <= start + shift && end + shift <= |v.source|
  {
    SegmentIsUnique(v, start, k);
    SegmentIsUnique(v, end - 1, k);
  }

  lemma SameSlice(a: string, b: string, low: nat, high: nat, x: nat, y: nat, shift: int)
    requires low <= x <= y <= high <= |a| && 0 <= low + shift && high + shift <= |b|
    requires a[low..high] == b[low + shift..high + shift]
    ensures a[x..y] == b[x + shift..y + shift]
  {
    forall i | x <= i < y ensures a[i] == b[i + shift] {
      assert a[low..high][i - low] == b[low + shift..high + shift][i - low];
    }
  }

  lemma CopiesAreLinear(v: View, k: nat)
    requires ViewOk(v) && k < |v.segments| && Copies(v, k)
    ensures Linear(v.segments[k])
  {
    var s := v.segments[k];
    assert |v.text[s.start..s.end]| == |v.source[s.sourceStart..s.sourceEnd]|;
  }

  /** Inside a copied segment the source span holds the very same text. */
  lemma CopiedSpanIsExact(v: View, k: nat, start: nat, end: nat)
    requires ViewOk(v) && k < |v.segments| && Copies(v, k) && v.segments[k].start <= start < end <= v.segments[k].end
    ensures v.segments != [] && v.segments[0].start == 0
    ensures var (a, b) := SourceSpan(v, start, end); 0 <= a <= b <= |v.source| && v.source[a..b] == v.text[start..end]
  {
    var s := v.segments[k];
    CopiesAreLinear(v, k);
    LinearSpan(v, k, start, end);
    SameSlice(v.text, v.source, s.start, s.end, start, end, s.sourceStart - s.start);
  }

  // ---- blanking links, addresses and paths ---------------------------------------------------------

  predicate IsBreak(c: char) { c == '\r' || c == '\n' }

  function Blank(value: string): (r: string)
    ensures |r| == |value|
    ensures forall i :: 0 <= i < |r| ==> r[i] == if IsBreak(value[i]) then value[i] else ' '
  {
    if value == "" then "" else [if IsBreak(value[0]) then value[0] else ' '] + Blank(value[1..])
  }

  predicate Within(matches: seq<(nat, nat)>, n: nat, i: int)
    requires n <= |matches|
  {
    exists k :: 0 <= k < n && matches[k].0 <= i < matches[k].1
  }

  /** One pattern's matches, in order, each inside the text. */
  ghost predicate MatchesOk(matches: seq<(nat, nat)>, length: nat) {
    && (forall k :: 0 <= k < |matches| ==> matches[k].0 <= matches[k].1 <= length)
    && (forall i, k :: 0 <= i < k < |matches| ==> matches[i].1 <= matches[k].0)
  }

  predicate BlankedAt(text: string, r: string, matches: seq<(nat, nat)>, n: nat, i: nat)
    requires n <= |matches| && i < |text| && i < |r|
  {
    r[i] == if Within(matches, n, i) && !IsBreak(text[i]) then ' ' else text[i]
  }

  /** `pattern.sub` with blanks: the same length and line breaks, every other
      matched character a space, everything else untouched. */
  method BlankMatches(text: string, matches: seq<(nat, nat)>) returns (r: string)
    requires MatchesOk(matches, |text|)
    ensures |r| == |text|
    ensures forall i :: 0 <= i < |text| ==> BlankedAt(text, r, matches, |matches|, i)
  {
    r := "";
    var position: nat, k := 0, 0;
    while k < |matches|
      invariant 0 <= k <= |matches| && position == (if k == 0 then 0 else matches[k - 1].1) && |r| == position <= |text|
      invariant forall i :: 0 <= i < position ==> BlankedAt(text, r, matches, k, i)
    {
      var m := matches[k];
      var next := r + text[position..m.0] + Blank(text[m.0..m.1]);
      var n := k + 1;
      forall i | 0 <= i < m.1 ensures BlankedAt(text, next, matches, n, i) {
        BlankStep(text, r, next, matches, position, k, i);
      }
      r, position, k := next, m.1, k + 1;
    }
    ghost var done := r;
    r := r + text[position..];
    forall i | 0 <= i < |text| ensures BlankedAt(text, r, matches, |matches|, i) {
      if i < position { assert BlankedAt(text, done, matches, |matches|, i); }
      else { LastMatch(matches, |text|, i); }
    }
  }

  lemma LastMatch(matches: seq<(nat, nat)>, length: nat, i: nat)
    requires MatchesOk(matches, length) && i >= (if matches == [] then 0 else matches[|matches| - 1].1)
    ensures !Within(matches, |matches|, i)
  {
  }

  lemma BlankStep(text: string, r: string, next: string, matches: seq<(nat, nat)>, position: nat, k: nat, i: nat)
    requires MatchesOk(matches, |text|) && k < |matches| && position == (if k == 0 then 0 else matches[k - 1].1)
    requires |r| == position && next == r + text[position..matches[k].0] + Blank(text[matches[k].0..matches[k].1])
    requires i < matches[k].1 && (i < position ==> BlankedAt(text, r, matches, k, i))
    ensures BlankedAt(text, next, matches, k + 1, i)
  {
    if i < position {
      assert Within(matches, k + 1, i) <==> Within(matches, k, i);
    } else if i < matches[k].0 {
      assert !Within(matches, k + 1, i);
    } else {
      assert matches[k].0 <= i < matches[k].1;
      assert Within(matches, k + 1, i);
    }
  }

  /** A span of a copied segment that the blanking left alone still reads the
      same in the source. */
  lemma UntouchedSpanIsExact(v: View, blanked: string, k: nat, start: nat, end: nat)
    requires ViewOk(v) && |blanked| == |v.text|
    requires k < |v.segments| && Copies(v, k) && v.segments[k].start <= start < end <= v.segments[k].end
    requires blanked[start..end] == v.text[start..end]
    ensures v.segments != [] && v.segments[0].start == 0
    ensures var (a, b) := SourceSpan(v.(text := blanked), start, end);
      0 <= a <= b <= |v.source| && v.source[a..b] == blanked[start..end]
  {
    CopiedSpanIsExact(v, k, start, end);
  }
}
