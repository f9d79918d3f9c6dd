/** The printed form of a compact table, a reader for it, and the proof that
    compaction loses nothing (app/models/document_input.py). */
module TableDecoding {
  import opened Options
  import opened CellNames
  import opened PdfTable
  import JsonText

  // ---- printing -----------------------------------------------------------------------------

  function Code(c: Confidence): string {
    match c case High => "H" case Medium => "M" case Low => "L"
  }

  function Header(t: Table): string {
    "[表 " + t.id + " " + t.rows + "×" + t.columns + " " + Code(t.confidence)
  }

  function PrintContent(c: Content): string {
    match c
    case Text(text) => JsonText.Print(text)
    case Marked(state) => Marker(state)
  }

  function PrintEntry(e: Entry): string { e.range + "=" + PrintContent(e.content) }

  function PrintEntries(entries: seq<Entry>): seq<string> {
    if entries == [] then [] else [PrintEntry(entries[0])] + PrintEntries(entries[1..])
  }

  /** Every line followed by a line break, and the closing bracket. */
  function JoinLines(lines: seq<string>, last: string): string {
    if lines == [] then last else lines[0] + "\n" + JoinLines(lines[1..], last)
  }

  function Compact(t: Table, entries: seq<Entry>): string {
    JoinLines([Header(t)] + PrintEntries(entries), "]")
  }

  /** An accepted table whose anchors' ranges tile it. */
  ghost predicate Compactable(t: Table, g: Grid)
    requires Matched(t)
  {
    Accepted(t) && GridOf(g, t) && FullGrid(g, Rows(t), Columns(t)) && Tiled(g, Rows(t), Columns(t))
  }

  ghost function CompactOf(t: Table, g: Grid): string
    requires Matched(t) && Compactable(t, g)
  {
    Compact(t, EntriesOf(g, |g.order|))
  }

  /** The one grid of an accepted table. */
  function GridOfTable(t: Table): Grid
    requires IsNumber(t.columns) && RowsOk(t.body, Value(t.columns), |t.body|)
  {
    GridFrom(t.body, Value(t.columns), |t.body|)
  }

  lemma OneGrid(t: Table, g: Grid)
    requires Matched(t) && Accepted(t) && GridOf(g, t)
    ensures g == GridOfTable(t)
  {
    GridIsGathered(t);
    assert g.cells == GridOfTable(t).cells;
  }

  /** `_compact_pdf_table`: the compact form when the table is accepted, its
      ranges tile it and the form is shorter; otherwise the original. */
  method CompactPdfTable(t: Table, original: string) returns (text: string)
    requires Matched(t)
    ensures text == if Accepted(t) && Compactable(t, GridOfTable(t)) && |CompactOf(t, GridOfTable(t))| < |original|
                    then CompactOf(t, GridOfTable(t)) else original
  {
    text := original;
    var cells := NormalizedCells(t);
    if cells.None? { return; }
    ghost var g := cells.value;
    OneGrid(t, g);
    AcceptedGridIsFull(g, t);
    var entries := CompactEntries(cells.value, Rows(t), Columns(t));
    if entries.None? { return; }
    var compact := Compact(t, entries.value);
    if |compact| < |original| { text := compact; }
  }

  lemma AcceptedCell(t: Table, p: Pos)
    requires Matched(t) && Accepted(t) && p.row < Rows(t) && p.column < Columns(t)
    ensures p.column < |t.body[p.row]| && CellOk(t.body[p.row][p.column], p)
  {
    EachRowOk(t.body, Columns(t), |t.body|, p.row);
    EachCellOk(t.body[p.row], p.row, Columns(t), p.column);
  }

  lemma AcceptedGridIsFull(g: Grid, t: Table)
    requires Matched(t) && Accepted(t) && GridOf(g, t)
    ensures FullGrid(g, Rows(t), Columns(t))
  {
    GridMembers(Rows(t), Columns(t));
    forall i | 0 <= i < |g.order| ensures g.order[i] in g.cells && g.cells[g.order[i]].reference.Some? {
      assert g.order[i] in g.order;
      AcceptedCell(t, g.order[i]);
    }
  }

  // ---- reading --------------------------------------------------------------------------------

  function ReadContent(value: string): Option<Content> {
    if value != "" && value[0] == JsonText.QUOTE then
      match JsonText.Parse(value) case Some(text) => Some(Text(text)) case None => None
    else if value == Marker(Empty) then Some(Marked(Empty))
    else if value == Marker(NonText) then Some(Marked(NonText))
    else if value == Marker(Unresolved) then Some(Marked(Unresolved))
    else None
  }

  /** A range, an equals sign and a value. */
  function ReadEntry(line: string): Option<Entry> {
    var n := IndexOf(line, '=');
    if n == |line| then None
    else match (RangeOf(line[..n]), ReadContent(line[n + 1..]))
      case (Some((first, last)), Some(content)) => Some(Entry(line[..n], first, last, content))
      case _ => None
  }

  /** Reads every line, or none. */
  function ReadEach<T>(read: string -> Option<T>, lines: seq<string>): Option<seq<T>> {
    if lines == [] then Some([])
    else match (read(lines[0]), ReadEach(read, lines[1..]))
      case (Some(e), Some(rest)) => Some([e] + rest)
      case _ => None
  }

  function SplitLines(text: string): seq<string>
    decreases |text|
  {
    var n := IndexOf(text, '\n');
    if n == |text| then [text] else [text[..n]] + SplitLines(text[n + 1..])
  }

  /** The entries of a compact table: all lines but the header and the bracket. */
  function Decode(text: string): Option<seq<Entry>> {
    var lines := SplitLines(text);
    if |lines| < 2 || lines[|lines| - 1] != "]" then None else ReadEach(ReadEntry, lines[1..|lines| - 1])
  }

  // ---- reading what was printed ------------------------------------------------------------------

  lemma {:induction false} IndexFound(s: string, c: char, n: nat)
    requires n <= |s| && c !in s[..n] && (n < |s| ==> s[n] == c)
    ensures IndexOf(s, c) == n
  {
    if n > 0 {
      assert s[0] == s[..n][0];
      assert s[1..][..n - 1] == s[..n][1..];
      IndexFound(s[1..], c, n - 1);
    }
  }

  lemma ContentReadsBack(c: Content)
    ensures ReadContent(PrintContent(c)) == Some(c)
  {
    match c
    case Text(text) => JsonText.RoundTrip(text);
    case Marked(state) =>
      assert |Marker(Empty)| == 6 && |Marker(NonText)| == 10 && |Marker(Unresolved)| == 12;
  }

  /** References hold no separator. */
  lemma {:induction false} DigitsHaveNoMark(s: string, c: char)
    requires AllDigits(s) && DigitValue(c).None?
    ensures c !in s
  {
    if s != "" {
      DigitsHaveNoMark(s[..|s| - 1], c);
      assert s == s[..|s| - 1] + [s[|s| - 1]];
    }
  }

  lemma {:induction false} LettersHaveNoMark(s: string, c: char)
    requires IsLetters(s) && !IsLetter(c)
    ensures c !in s
  {
    if s != "" {
      LettersHaveNoMark(s[..|s| - 1], c);
      assert s == s[..|s| - 1] + [s[|s| - 1]];
    }
  }

  lemma ReferenceHasNoMark(s: string, c: char)
    requires IsReference(s) && DigitValue(c).None? && !IsLetter(c)
    ensures c !in s
  {
    var n := LetterCount(s);
    LettersHaveNoMark(s[..n], c);
    DigitsHaveNoMark(s[n..], c);
    assert s == s[..n] + s[n..];
  }

  lemma RangeHasNoMark(range: string, c: char)
    requires RangeOf(range).Some? && (c == '=' || c == '\n')
    ensures c !in range
  {
    var n := IndexOf(range, ':');
    assert DigitValue(c).None?;
    ReferenceHasNoMark(range[..n], c);
    if n < |range| {
      ReferenceHasNoMark(range[n + 1..], c);
      assert range == range[..n] + [':'] + range[n + 1..];
    } else {
      assert range == range[..n];
    }
  }

  lemma EntryReadsBack(e: Entry)
    requires RangeOf(e.range) == Some((e.first, e.last))
    ensures ReadEntry(PrintEntry(e)) == Some(e)
  {
    var line := PrintEntry(e);
    RangeHasNoMark(e.range, '=');
    assert line[..|e.range|] == e.range && line[|e.range|] == '=' && line[|e.range| + 1..] == PrintContent(e.content);
    IndexFound(line, '=', |e.range|);
    ContentReadsBack(e.content);
  }

  predicate Readable(entries: seq<Entry>) {
    entries == [] || (RangeOf(entries[0].range) == Some((entries[0].first, entries[0].last)) && Readable(entries[1..]))
  }

  lemma {:induction false} ReadableAppend(entries: seq<Entry>, e: Entry)
    requires Readable(entries) && RangeOf(e.range) == Some((e.first, e.last))
    ensures Readable(entries + [e])
    decreases |entries|
  {
    if entries == [] {
      assert [e][1..] == [];
    } else {
      var rest := entries[1..] + [e];
      ReadableAppend(entries[1..], e);
      assert (entries + [e])[1..] == rest && (entries + [e])[0] == entries[0];
    }
  }

  lemma {:induction false} EachReadsBack<T>(read: string -> Option<T>, lines: seq<string>, entries: seq<T>)
    requires |lines| == |entries| && forall i :: 0 <= i < |lines| ==> read(lines[i]) == Some(entries[i])
    ensures ReadEach(read, lines) == Some(entries)
  {
    if lines != [] {
      EachReadsBack(read, lines[1..], entries[1..]);
      assert entries == [entries[0]] + entries[1..];
    }
  }

  lemma {:induction false} EntryAt(entries: seq<Entry>, i: nat)
    requires Readable(entries) && i < |entries|
    ensures |PrintEntries(entries)| == |entries| && PrintEntries(entries)[i] == PrintEntry(entries[i])
    ensures RangeOf(entries[i].range) == Some((entries[i].first, entries[i].last))
  {
    if i > 0 { EntryAt(entries[1..], i - 1); }
    if |entries| > 1 { EntryAt(entries[1..], 0); }
  }

  lemma EntriesReadBack(entries: seq<Entry>)
    requires Readable(entries)
    ensures ReadEach(ReadEntry, PrintEntries(entries)) == Some(entries)
  {
    var lines := PrintEntries(entries);
    if entries != [] { EntryAt(entries, 0); }
    forall i | 0 <= i < |entries| ensures ReadEntry(lines[i]) == Some(entries[i]) {
      EntryAt(entries, i);
      EntryReadsBack(entries[i]);
    }
    EachReadsBack(ReadEntry, lines, entries);
  }

  lemma EntryIsOneLine(e: Entry)
    requires RangeOf(e.range).Some?
    ensures '\n' !in PrintEntry(e)
  {
    RangeHasNoMark(e.range, '\n');
    match e.content
    case Text(text) => JsonText.EscapedIsOneLine(text);
    case Marked(state) =>
  }

  lemma {:induction false} EntriesAreLines(entries: seq<Entry>)
    requires Readable(entries)
    ensures forall line <- PrintEntries(entries) :: '\n' !in line
  {
    if entries != [] {
      EntryIsOneLine(entries[0]);
      EntriesAreLines(entries[1..]);
    }
  }

  lemma {:induction false} LinesSplitBack(lines: seq<string>, last: string)
    requires '\n' !in last && forall line <- lines :: '\n' !in line
    ensures SplitLines(JoinLines(lines, last)) == lines + [last]
  {
    var text := JoinLines(lines, last);
    if lines == [] {
      assert text[..|text|] == text;
      IndexFound(text, '\n', |text|);
    } else {
      var n := |lines[0]|;
      assert text[..n] == lines[0] && text[n] == '\n' && text[n + 1..] == JoinLines(lines[1..], last);
      IndexFound(text, '\n', n);
      LinesSplitBack(lines[1..], last);
      assert lines + [last] == [lines[0]] + (lines[1..] + [last]);
    }
  }

  lemma HeaderIsOneLine(t: Table)
    requires Matched(t)
    ensures '\n' !in Header(t)
  {
    DigitsHaveNoMark(t.rows, '\n');
    DigitsHaveNoMark(t.columns, '\n');
  }

  /** The printed table reads back as the entries it was printed from. */
  lemma CompactReadsBack(t: Table, entries: seq<Entry>)
    requires Matched(t) && Readable(entries)
    ensures Decode(Compact(t, entries)) == Some(entries)
  {
    var lines := [Header(t)] + PrintEntries(entries);
    HeaderIsOneLine(t);
    EntriesAreLines(entries);
    LinesSplitBack(lines, "]");
    EntriesReadBack(entries);
    assert (lines + ["]"])[1..|lines|] == PrintEntries(entries);
  }

  /** A text that looks like a marker is not printed as the marker. */
  lemma LookalikeStaysText(range: string, first: Pos, last: Pos, text: string, state: State)
    ensures PrintEntry(Entry(range, first, last, Text(text))) != PrintEntry(Entry(range, first, last, Marked(state)))
  {
    ContentReadsBack(Text(text));
    ContentReadsBack(Marked(state));
    var a, b := PrintEntry(Entry(range, first, last, Text(text))), PrintEntry(Entry(range, first, last, Marked(state)));
    assert a[|range| + 1..] == PrintContent(Text(text)) && b[|range| + 1..] == PrintContent(Marked(state));
  }

  // ---- nothing is lost --------------------------------------------------------------------------------

  /** What a position of the table says. */
  datatype Meaning = Meaning(anchor: Pos, range: string, state: Option<State>, text: string)

  function MeaningOf(c: Cell): Option<Meaning> {
    if c.reference.None? then None
    else
      var anchor := if c.inherited.Some? then c.inherited.value else c.reference.value;
      if IsReference(anchor) then Some(Meaning(Position(anchor), CellRange(c), StateOf(c), c.text)) else None
  }

  function ShownText(c: Content): string {
    match c case Text(text) => text case Marked(state) => Marker(state)
  }

  function ShownState(c: Content): Option<State> {
    match c case Text(_) => None case Marked(state) => Some(state)
  }

  /** What the entry covering a position says about it. */
  function Rebuild(e: Entry, p: Pos): Meaning {
    if p == e.first then Meaning(e.first, e.range, ShownState(e.content), ShownText(e.content))
    else Meaning(e.first, e.range, None, InheritedText(ShownState(e.content), ShownText(e.content), FirstPart(e.range)))
  }

  /** The range starts with the very spelling of the anchor's own coordinate. */
  predicate SpelledAlike(c: Cell)
    requires c.reference.Some?
  {
    FirstPart(CellRange(c)) == c.reference.value
  }

  lemma AnchorIsRebuilt(c: Cell, p: Pos, rows: nat, columns: nat)
    requires CellOk(c, p) && c.inherited.None? && AnchorOk(c, p, rows, columns)
    ensures MeaningOf(c) == Some(Rebuild(EntryOf(c), p))
  {
  }

  lemma InheritedTextsDiffer(state: Option<State>, text: string, a: string, b: string)
    ensures InheritedText(state, text, a) == InheritedText(state, text, b) <==> a == b || (state != Some(Empty) && state != Some(NonText))
  {
    match state
    case Some(NonText) =>
      var head := "[合并覆盖，继承自";
      var x, y := head + a, head + b;
      if x + "的非文本内容]" == y + "的非文本内容]" {
        assert |a| == |b|;
        assert (x + "的非文本内容]")[..|x|] == x && (y + "的非文本内容]")[..|x|] == y;
        assert x[|head|..] == a && y[|head|..] == b;
      }
    case Some(Empty) =>
      var head := "[合并覆盖，继承自";
      var x, y := head + a, head + b;
      if x + "]" == y + "]" {
        assert |a| == |b|;
        assert (x + "]")[..|x|] == x && (y + "]")[..|x|] == y;
        assert x[|head|..] == a && y[|head|..] == b;
      }
    case _ =>
  }

  /** An inherited position is rebuilt, up to how the anchor's coordinate is
      spelled inside the text of a covered empty or graphic position. */
  lemma InheritedIsRebuilt(c: Cell, anchor: Cell, p: Pos, q: Pos, rows: nat, columns: nat)
    requires CellOk(anchor, p) && anchor.inherited.None? && AnchorOk(anchor, p, rows, columns)
    requires CellOk(c, q) && q != p && InheritedOk(c, anchor)
    ensures MeaningOf(c).Some? && MeaningOf(c).value.(text := "") == Rebuild(EntryOf(anchor), q).(text := "")
    ensures MeaningOf(c) == Some(Rebuild(EntryOf(anchor), q))
       <==> SpelledAlike(anchor) || (StateOf(anchor) != Some(Empty) && StateOf(anchor) != Some(NonText))
  {
    var e := EntryOf(anchor);
    assert ShownState(e.content) == StateOf(anchor) && ShownText(e.content) == anchor.text;
    InheritedTextsDiffer(StateOf(anchor), anchor.text, anchor.reference.value, FirstPart(e.range));
  }

  // ---- the main result ---------------------------------------------------------------------------------

  predicate Covers(e: Entry, p: Pos) {
    e.first.row <= p.row <= e.last.row && e.first.column <= p.column <= e.last.column
  }

  /** How many entries cover a position. */
  function CoverCount(entries: seq<Entry>, p: Pos): nat {
    if entries == [] then 0
    else CoverCount(entries[..|entries| - 1], p) + if Covers(entries[|entries| - 1], p) then 1 else 0
  }

  /** What the entries say about a position. */
  function Look(entries: seq<Entry>, p: Pos): Option<Meaning> {
    if entries == [] then None
    else
      var e := entries[|entries| - 1];
      if Covers(e, p) then Some(Rebuild(e, p)) else Look(entries[..|entries| - 1], p)
  }

  lemma CoversItsArea(c: Cell, at: Pos, rows: nat, columns: nat, p: Pos)
    requires c.reference.Some? && AnchorOk(c, at, rows, columns)
    ensures Covers(EntryOf(c), p) <==> p in Area(c)
    ensures RangeOf(EntryOf(c).range) == Some((EntryOf(c).first, EntryOf(c).last))
  {
  }

  lemma {:induction false} EntriesAreReadable(g: Grid, n: nat, rows: nat, columns: nat)
    requires Placed(g, n) && Laid(g, n, rows, columns)
    ensures Readable(EntriesOf(g, n))
  {
    if n > 0 {
      EntriesAreReadable(g, n - 1, rows, columns);
      var c := CellAt(g, n - 1);
      if c.inherited.None? {
        CoversItsArea(c, g.order[n - 1], rows, columns, Pos(0, 0));
        ReadableAppend(EntriesOf(g, n - 1), EntryOf(c));
      } else {
        assert EntriesOf(g, n) == EntriesOf(g, n - 1);
      }
    }
  }

  /** Laid ranges cover a position once, or not at all. */
  lemma {:induction false} CoveredOnce(g: Grid, n: nat, rows: nat, columns: nat, p: Pos)
    requires Placed(g, n) && Laid(g, n, rows, columns)
    ensures CoverCount(EntriesOf(g, n), p) == if p in Areas(g, n) then 1 else 0
  {
    if n > 0 {
      CoveredOnce(g, n - 1, rows, columns, p);
      var c := CellAt(g, n - 1);
      if c.inherited.None? {
        CoversItsArea(c, g.order[n - 1], rows, columns, p);
        assert EntriesOf(g, n)[..|EntriesOf(g, n)| - 1] == EntriesOf(g, n - 1);
      } else {
        assert EntriesOf(g, n) == EntriesOf(g, n - 1);
      }
    }
  }

  lemma LookLast(g: Grid, n: nat, rows: nat, columns: nat, p: Pos)
    requires n > 0 && Placed(g, n) && Laid(g, n, rows, columns)
    ensures var c := CellAt(g, n - 1);
      Look(EntriesOf(g, n), p) == if c.inherited.None? && p in Area(c) then Some(Rebuild(EntryOf(c), p)) else Look(EntriesOf(g, n - 1), p)
  {
    var c := CellAt(g, n - 1);
    if c.inherited.None? {
      CoversItsArea(c, g.order[n - 1], rows, columns, p);
      assert EntriesOf(g, n)[..|EntriesOf(g, n)| - 1] == EntriesOf(g, n - 1);
    } else {
      assert EntriesOf(g, n) == EntriesOf(g, n - 1);
    }
  }

  /** The anchor whose range covers a position. */
  lemma {:induction false} CoveringAnchor(g: Grid, n: nat, rows: nat, columns: nat, p: Pos) returns (i: nat)
    requires Placed(g, n) && Laid(g, n, rows, columns) && p in Areas(g, n)
    ensures i < n && Placed(g, i + 1) && CellAt(g, i).inherited.None? && AnchorFits(g, i, rows, columns)
    ensures p in Area(CellAt(g, i)) && Look(EntriesOf(g, n), p) == Some(Rebuild(EntryOf(CellAt(g, i)), p))
  {
    LookLast(g, n, rows, columns, p);
    if CellAt(g, n - 1).inherited.None? && p in Area(CellAt(g, n - 1)) { i := n - 1; } else { i := CoveringAnchor(g, n - 1, rows, columns, p); }
  }

  /** The anchor's own coordinate is shown at p, and spelled otherwise in the range. */
  ghost predicate Respelled(g: Grid, p: Pos)
    requires p in g.cells
  {
    g.cells[p].inherited.Some? && exists a <- g.cells ::
      && g.cells[a].reference == g.cells[p].inherited && !SpelledAlike(g.cells[a])
      && (StateOf(g.cells[a]) == Some(Empty) || StateOf(g.cells[a]) == Some(NonText))
  }

  lemma OnlyOneNamed(t: Table, g: Grid, a: Pos, b: Pos)
    requires Matched(t) && Compactable(t, g) && a in g.cells && b in g.cells && g.cells[a].reference == g.cells[b].reference
    ensures a == b
  {
    AcceptedCell(t, a);
    AcceptedCell(t, b);
  }

  lemma CoveredIsRebuilt(t: Table, g: Grid, i: nat, p: Pos)
    requires Matched(t) && Compactable(t, g) && i < |g.order| && CellAt(g, i).inherited.None?
    requires AnchorFits(g, i, Rows(t), Columns(t)) && p in Area(CellAt(g, i)) && p in g.cells
    ensures MeaningOf(g.cells[p]) == Some(Rebuild(EntryOf(CellAt(g, i)), p)) <==> !Respelled(g, p)
    ensures MeaningOf(g.cells[p]).Some? && MeaningOf(g.cells[p]).value.(text := "") == Rebuild(EntryOf(CellAt(g, i)), p).(text := "")
  {
    var a := g.order[i];
    AcceptedCell(t, a);
    AcceptedCell(t, p);
    if p == a {
      AnchorIsRebuilt(g.cells[a], a, Rows(t), Columns(t));
    } else {
      assert InheritedOk(g.cells[p], g.cells[a]);
      InheritedIsRebuilt(g.cells[p], g.cells[a], a, p, Rows(t), Columns(t));
      RespelledHere(t, g, a, p);
    }
  }

  lemma RespelledHere(t: Table, g: Grid, a: Pos, p: Pos)
    requires Matched(t) && Compactable(t, g) && a in g.cells && p in g.cells
    requires g.cells[a].reference.Some? && g.cells[p].inherited == g.cells[a].reference
    ensures Respelled(g, p) <==> !(SpelledAlike(g.cells[a]) || (StateOf(g.cells[a]) != Some(Empty) && StateOf(g.cells[a]) != Some(NonText)))
  {
    if Respelled(g, p) {
      var b :| b in g.cells && g.cells[b].reference == g.cells[p].inherited && !SpelledAlike(g.cells[b])
            && (StateOf(g.cells[b]) == Some(Empty) || StateOf(g.cells[b]) == Some(NonText));
      OnlyOneNamed(t, g, a, b);
    }
  }

  /** Compaction is lossless: the compact text reads back as entries whose
      ranges cover each position of the grid exactly once and nothing else, and
      they give every position's anchor, range, state and text. The text alone
      can differ, and does so exactly where an anchor's coordinate is spelled
      with other digits in its range. */
  lemma CompactIsLossless(t: Table, g: Grid, p: Pos)
    requires Matched(t) && Compactable(t, g)
    ensures var entries := EntriesOf(g, |g.order|);
      && Decode(CompactOf(t, g)) == Some(entries)
      && CoverCount(entries, p) == (if p.row < Rows(t) && p.column < Columns(t) then 1 else 0)
      && (p in g.cells ==> (Look(entries, p) == MeaningOf(g.cells[p]) <==> !Respelled(g, p)))
      && (p in g.cells ==> Look(entries, p).Some? && MeaningOf(g.cells[p]).Some?
                           && Look(entries, p).value.(text := "") == MeaningOf(g.cells[p]).value.(text := ""))
  {
    var n := |g.order|;
    EntriesAreReadable(g, n, Rows(t), Columns(t));
    CompactReadsBack(t, EntriesOf(g, n));
    CoveredOnce(g, n, Rows(t), Columns(t), p);
    assert p in Areas(g, n) <==> p in g.cells;
    if p in g.cells {
      var i := CoveringAnchor(g, n, Rows(t), Columns(t), p);
      CoveredIsRebuilt(t, g, i, p);
    }
  }

  lemma AsciiSpelledAlike(c: Cell, p: Pos, rows: nat, columns: nat)
    requires CellOk(c, p) && AnchorOk(c, p, rows, columns)
    requires AsciiReference(FirstPart(CellRange(c))) && AsciiReference(c.reference.value)
    ensures SpelledAlike(c)
  {
    ReferencesWriteBack(c.reference.value);
    ReferencesWriteBack(FirstPart(CellRange(c)));
  }

  /** A coordinate and a range that both spell their digits in ASCII agree, so
      nothing about an inherited position differs. */
  lemma AsciiIsNeverRespelled(t: Table, g: Grid, a: Pos, p: Pos)
    requires Matched(t) && Compactable(t, g) && a in g.cells && p in g.cells && g.cells[p].inherited == g.cells[a].reference
    requires g.cells[a].reference.Some? && AnchorOk(g.cells[a], a, Rows(t), Columns(t))
    requires AsciiReference(FirstPart(CellRange(g.cells[a]))) && AsciiReference(g.cells[a].reference.value)
    ensures !Respelled(g, p)
  {
    AcceptedCell(t, a);
    AsciiSpelledAlike(g.cells[a], a, Rows(t), Columns(t));
    RespelledHere(t, g, a, p);
  }
}
