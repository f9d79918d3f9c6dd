/** Accepted tables in which a coordinate is spelled with a digit that is not an
    ASCII one: compaction changes a text, or the evidence index has no anchor. */
module RespelledTables {
  import opened Options
  import opened CellNames
  import opened PdfTable
  import opened TableDecoding
  import TableEvidence

  /** The coordinate of the twelfth cell, how its range begins, and the
      coordinate of the last cell. */
  datatype Spelling = Spelling(own: string, first: string, last: string)

  predicate Names(s: string, row: nat) { IsReference(s) && Position(s) == Pos(row, 0) }

  predicate Spells(s: Spelling) { Names(s.own, 11) && Names(s.first, 11) && Names(s.last, 12) }

  function Plain(i: nat): Cell { Cell(Some(Name(Pos(i, 0))), None, None, None, None, None, None, None, false, "x") }

  function Range(s: Spelling): string { s.first + ":" + s.last }

  /** Empty, over itself and the last cell. */
  function Anchor(s: Spelling): Cell {
    Cell(Some(s.own), Some(Range(s)), Some(Int(2)), None, None, Some("true"), None, None, false, Marker(Empty))
  }

  function Covered(s: Spelling): Cell {
    Cell(Some(s.last), Some(Range(s)), None, None, Some(s.own), None, None, None, false, InheritedText(Some(Empty), Marker(Empty), s.own))
  }

  /** Thirteen rows of one column. */
  function CellOfRow(s: Spelling, i: nat): Cell {
    if i < 11 then Plain(i) else if i == 11 then Anchor(s) else Covered(s)
  }

  function Body(s: Spelling): seq<seq<Cell>> { seq(13, i requires 0 <= i => [CellOfRow(s, i)]) }

  function Sheet(s: Spelling): Table { Table("T1", "13", "1", High, Body(s), []) }

  lemma SheetIsMatched(s: Spelling)
    ensures Matched(Sheet(s)) && Rows(Sheet(s)) == 13 && Columns(Sheet(s)) == 1
  {
    assert "13"[..1] == "1" && "1"[..0] == "" && Value("1") == 1 && Value("13") == 13;
    assert AllDigits("1") && AllDigits("13");
  }

  // ---- the table is accepted -------------------------------------------------------------------

  lemma RowIsOk(s: Spelling, i: nat)
    requires i < 13 && Spells(s)
    ensures RowOk(Body(s)[i], i, 1)
  {
    NamesReadBack(Pos(i, 0));
    var row := Body(s)[i];
    assert row == [CellOfRow(s, i)] && CellOk(row[0], Pos(i, 0));
    assert CellsOk(row, i, 0) && CellsOk(row, i, 1);
  }

  lemma {:induction false} RowsAreOk(s: Spelling, n: nat)
    requires n <= 13 && Spells(s)
    ensures RowsOk(Body(s), 1, n)
  {
    if n > 0 {
      RowsAreOk(s, n - 1);
      RowIsOk(s, n - 1);
    }
  }

  lemma {:induction false} NothingUnresolved(s: Spelling, n: nat)
    requires n <= 13
    ensures UnresolvedInRows(Body(s)[..n]) == []
  {
    if n > 0 {
      NothingUnresolved(s, n - 1);
      var rows := Body(s)[..n];
      assert rows[..n - 1] == Body(s)[..n - 1] && rows[n - 1] == [CellOfRow(s, n - 1)];
      assert rows[n - 1][..0] == [] && UnresolvedInRow(rows[n - 1]) == [];
    }
  }

  lemma SheetIsAccepted(s: Spelling)
    requires Spells(s)
    ensures Matched(Sheet(s)) && Accepted(Sheet(s))
  {
    SheetIsMatched(s);
    RowsAreOk(s, 13);
    NothingUnresolved(s, 13);
    assert Body(s)[..13] == Body(s);
  }

  lemma {:induction false} OneColumn(n: nat)
    ensures |GridOrder(n, 1)| == n && forall i :: 0 <= i < n ==> GridOrder(n, 1)[i] == Pos(i, 0)
  {
    if n > 0 {
      OneColumn(n - 1);
      assert RowOrder(n - 1, 0) == [] && RowOrder(n - 1, 1) == [Pos(n - 1, 0)];
    }
  }

  /** The grid of such a table. */
  ghost predicate Holds(g: Grid, s: Spelling, rows: nat, columns: nat) {
    && rows == 13 && columns == 1 && |g.order| == rows && FullGrid(g, rows, columns)
    && forall i :: 0 <= i < rows ==> g.order[i] == Pos(i, 0) && g.cells[g.order[i]] == CellOfRow(s, i)
  }

  lemma SheetHasGrid(s: Spelling) returns (g: Grid)
    requires Spells(s)
    ensures Matched(Sheet(s)) && Accepted(Sheet(s)) && GridOf(g, Sheet(s)) && Holds(g, s, 13, 1)
  {
    var t := Sheet(s);
    SheetIsAccepted(s);
    SheetIsMatched(s);
    g := GridOfTable(t);
    GridIsGathered(t);
    AcceptedGridIsFull(g, t);
    OneColumn(13);
    forall i | 0 <= i < 13 ensures g.order[i] == Pos(i, 0) && g.cells[g.order[i]] == CellOfRow(s, i) {
      assert t.body[i] == [CellOfRow(s, i)] && Pos(i, 0) in g.cells;
    }
  }

  // ---- its ranges tile it -------------------------------------------------------------------------

  lemma ColonFree(s: string)
    requires IsReference(s)
    ensures IndexOf(s, ':') == |s| && ':' !in s
  {
    ReferenceHasNoMark(s, ':');
    assert s[..|s|] == s;
    IndexFound(s, ':', |s|);
  }

  lemma RangeOfOne(s: string)
    requires IsReference(s)
    ensures RangeOf(s) == Some((Position(s), Position(s)))
  {
    ColonFree(s);
    assert s[..|s|] == s;
  }

  lemma RangeOfTwo(a: string, b: string)
    requires IsReference(a) && IsReference(b)
    ensures RangeOf(a + ":" + b) == Some((Position(a), Position(b))) && FirstPart(a + ":" + b) == a
  {
    var s := a + ":" + b;
    ColonFree(a);
    ColonFree(b);
    assert s[..|a|] == a && s[|a|] == ':' && s[|a| + 1..] == b;
    IndexFound(s, ':', |a|);
  }

  lemma OneRow(p: Pos)
    ensures Rectangle(p, p) == {p}
  {
  }

  lemma SingleFits(c: Cell, p: Pos, rows: nat, columns: nat)
    requires c.reference.Some? && IsReference(c.reference.value) && Position(c.reference.value) == p
    requires c.range.None? && c.rowspan.None? && c.colspan.None? && p.row < rows && p.column < columns
    ensures AnchorOk(c, p, rows, columns) && Area(c) == {p}
  {
    RangeOfOne(c.reference.value);
    OneRow(p);
  }

  lemma TwoRows(p: Pos, q: Pos)
    requires q == Pos(p.row + 1, p.column)
    ensures Rectangle(p, q) == {p, q}
  {
  }

  lemma AreaIs(c: Cell, p: Pos, q: Pos)
    requires c.reference.Some? && RangeOf(CellRange(c)) == Some((p, q))
    ensures Area(c) == Rectangle(p, q)
  {
  }

  lemma DoubleFits(c: Cell, p: Pos, q: Pos, rows: nat, columns: nat)
    requires c.reference.Some? && RangeOf(CellRange(c)) == Some((p, q)) && q == Pos(p.row + 1, p.column)
    requires SpanFits(c.rowspan, 2) && SpanFits(c.colspan, 1)
    requires q.row < rows && q.column < columns
    ensures AnchorOk(c, p, rows, columns)
  {
  }

  function FirstRows(n: nat): set<Pos> { set i: nat | i < n :: Pos(i, 0) }

  lemma NextRow(n: nat)
    ensures FirstRows(n + 1) == FirstRows(n) + {Pos(n, 0)} && {Pos(n, 0)} !! FirstRows(n)
  {
  }

  lemma LaidNext(g: Grid, n: nat, rows: nat, columns: nat, area: set<Pos>)
    requires Placed(g, n) && Placed(g, n + 1) && Laid(g, n, rows, columns) && CellAt(g, n).inherited.None?
    requires AnchorFits(g, n, rows, columns) && Area(CellAt(g, n)) == area && area !! Areas(g, n)
    ensures Laid(g, n + 1, rows, columns) && Areas(g, n + 1) == Areas(g, n) + area
  {
  }

  lemma LaidPast(g: Grid, n: nat, rows: nat, columns: nat)
    requires Placed(g, n) && Placed(g, n + 1) && Laid(g, n, rows, columns) && CellAt(g, n).inherited.Some?
    ensures Laid(g, n + 1, rows, columns) && Areas(g, n + 1) == Areas(g, n)
  {
  }

  lemma CellHere(s: Spelling, g: Grid, n: nat, rows: nat, columns: nat)
    requires Holds(g, s, rows, columns) && n < rows
    ensures Placed(g, n) && Placed(g, n + 1) && g.order[n] == Pos(n, 0) && Pos(n, 0) in g.cells
    ensures g.cells[Pos(n, 0)] == CellOfRow(s, n) == CellAt(g, n)
  {
  }

  lemma PlainIsSingle(n: nat, rows: nat, columns: nat)
    requires n < rows && 0 < columns
    ensures AnchorOk(Plain(n), Pos(n, 0), rows, columns) && Area(Plain(n)) == {Pos(n, 0)}
  {
    NamesReadBack(Pos(n, 0));
    SingleFits(Plain(n), Pos(n, 0), rows, columns);
  }

  lemma PlainFits(s: Spelling, g: Grid, n: nat, rows: nat, columns: nat)
    requires Holds(g, s, rows, columns) && n < rows - 2 && Placed(g, n + 1)
    ensures AnchorFits(g, n, rows, columns) && CellAt(g, n).inherited.None? && Area(CellAt(g, n)) == {Pos(n, 0)}
  {
    CellHere(s, g, n, rows, columns);
    PlainIsSingle(n, rows, columns);
    assert Inherits(g, Pos(n, 0), {Pos(n, 0)});
  }

  lemma PlainRowIsLaid(s: Spelling, g: Grid, n: nat, rows: nat, columns: nat)
    requires Holds(g, s, rows, columns) && n < rows - 2
    requires Placed(g, n) && Laid(g, n, rows, columns) && Areas(g, n) == FirstRows(n)
    ensures Placed(g, n + 1) && Laid(g, n + 1, rows, columns) && Areas(g, n + 1) == FirstRows(n + 1)
  {
    CellHere(s, g, n, rows, columns);
    PlainFits(s, g, n, rows, columns);
    NextRow(n);
    LaidNext(g, n, rows, columns, {Pos(n, 0)});
  }

  lemma {:induction false} PlainRowsAreLaid(s: Spelling, g: Grid, n: nat, rows: nat, columns: nat)
    requires Holds(g, s, rows, columns) && n <= rows - 2
    ensures Placed(g, n) && Laid(g, n, rows, columns) && Areas(g, n) == FirstRows(n)
  {
    if n > 0 {
      PlainRowsAreLaid(s, g, n - 1, rows, columns);
      PlainRowIsLaid(s, g, n - 1, rows, columns);
    }
  }

  lemma AnchorFitsToo(s: Spelling, g: Grid, n: nat, rows: nat, columns: nat)
    requires Spells(s) && Holds(g, s, rows, columns) && n == rows - 2 && Placed(g, n + 1)
    ensures AnchorFits(g, n, rows, columns) && CellAt(g, n).inherited.None? && Area(CellAt(g, n)) == {Pos(n, 0), Pos(n + 1, 0)}
  {
    CellHere(s, g, n, rows, columns);
    CellHere(s, g, n + 1, rows, columns);
    AnchorRange(s);
    var p, q := Pos(n, 0), Pos(n + 1, 0);
    AreaIs(Anchor(s), p, q);
    TwoRows(p, q);
    DoubleFits(Anchor(s), p, q, rows, columns);
    CoveredInherits(s);
    assert Inherits(g, p, {p, q});
  }

  lemma AnchorRange(s: Spelling)
    requires Spells(s)
    ensures RangeOf(CellRange(Anchor(s))) == Some((Pos(11, 0), Pos(12, 0))) && FirstPart(CellRange(Anchor(s))) == s.first
  {
    RangeOfTwo(s.first, s.last);
  }

  lemma CoveredInherits(s: Spelling)
    ensures InheritedOk(Covered(s), Anchor(s))
  {
  }

  lemma AnchorIsLaid(s: Spelling, g: Grid, n: nat, rows: nat, columns: nat)
    requires Spells(s) && Holds(g, s, rows, columns) && n == rows - 2
    requires Placed(g, n) && Laid(g, n, rows, columns) && Areas(g, n) == FirstRows(n)
    ensures Placed(g, n + 1) && Laid(g, n + 1, rows, columns) && Areas(g, n + 1) == FirstRows(n + 2)
  {
    CellHere(s, g, n, rows, columns);
    AnchorFitsToo(s, g, n, rows, columns);
    NextRow(n);
    NextRow(n + 1);
    LaidNext(g, n, rows, columns, {Pos(n, 0), Pos(n + 1, 0)});
  }

  lemma AllRows(s: Spelling, g: Grid, rows: nat, columns: nat)
    requires Holds(g, s, rows, columns)
    ensures g.cells.Keys == FirstRows(rows)
  {
  }

  lemma SheetIsTiled(s: Spelling, g: Grid, rows: nat, columns: nat)
    requires Spells(s) && Holds(g, s, rows, columns)
    ensures Tiled(g, rows, columns)
  {
    PlainRowsAreLaid(s, g, rows - 2, rows, columns);
    AnchorIsLaid(s, g, rows - 2, rows, columns);
    CellHere(s, g, rows - 1, rows, columns);
    LaidPast(g, rows - 1, rows, columns);
    AllRows(s, g, rows, columns);
  }

  lemma SheetIsCompactable(s: Spelling) returns (g: Grid)
    requires Spells(s)
    ensures Matched(Sheet(s)) && Compactable(Sheet(s), g) && Holds(g, s, 13, 1)
  {
    g := SheetHasGrid(s);
    SheetIsMatched(s);
    SheetIsTiled(s, g, 13, 1);
  }

  // ---- and reads differently ------------------------------------------------------------------------

  /** A12 with an Arabic-Indic two. */
  function Foreign(): string { ['A', '1', 0x662 as char] }

  lemma ForeignNames()
    ensures Names(Foreign(), 11) && !AsciiReference(Foreign())
  {
    ForeignDigitsAreRead();
    ReferencesWriteBack(Foreign());
  }

  lemma AsciiNames(row: nat)
    ensures Names(Name(Pos(row, 0)), row) && AsciiReference(Name(Pos(row, 0)))
  {
    NamesReadBack(Pos(row, 0));
    NameIsAscii(Pos(row, 0));
  }

  lemma LastCell(s: Spelling, g: Grid)
    requires Holds(g, s, 13, 1)
    ensures Pos(11, 0) in g.cells && g.cells[Pos(11, 0)] == Anchor(s) && Pos(12, 0) in g.cells && g.cells[Pos(12, 0)] == Covered(s)
  {
    assert g.order[11] == Pos(11, 0) && g.order[12] == Pos(12, 0);
  }

  lemma LastIsRespelled(s: Spelling, g: Grid)
    requires Spells(s) && Holds(g, s, 13, 1) && s.own != s.first
    ensures Pos(12, 0) in g.cells && Respelled(g, Pos(12, 0))
  {
    LastCell(s, g);
    AnchorRange(s);
    assert !SpelledAlike(Anchor(s));
  }

  /** The anchor named in ASCII, its range not. */
  function Mixed(): Spelling { Spelling(Name(Pos(11, 0)), Foreign(), Name(Pos(12, 0))) }

  lemma MixedSpells()
    ensures Spells(Mixed()) && Mixed().own != Mixed().first
  {
    ForeignNames();
    AsciiNames(11);
    AsciiNames(12);
  }

  /** A table the compaction accepts and whose last position reads back with
      another text: its anchor is named in ASCII and spelled otherwise in its range. */
  lemma CompactionChangesAText() returns (t: Table, g: Grid)
    ensures Matched(t) && Compactable(t, g) && Pos(12, 0) in g.cells && Respelled(g, Pos(12, 0))
    ensures Look(EntriesOf(g, |g.order|), Pos(12, 0)) != MeaningOf(g.cells[Pos(12, 0)])
  {
    MixedSpells();
    t := Sheet(Mixed());
    g := SheetIsCompactable(Mixed());
    LastIsRespelled(Mixed(), g);
    CompactIsLossless(t, g, Pos(12, 0));
  }

  /** One in which both spell it otherwise: the evidence index does not give
      the last position the anchor that the compact form gives it. */
  lemma TheIndexHasAnotherAnchor() returns (t: Table, g: Grid)
    ensures Matched(t) && Compactable(t, g) && Pos(12, 0) in g.cells && g.cells[Pos(12, 0)].inherited == Some(Foreign())
    ensures IsReference(Foreign()) && Position(Foreign()) == Pos(11, 0) && !TableEvidence.Nameable(Foreign())
    ensures var e := TableEvidence.EvidenceOf(g.cells[Pos(12, 0)], Pos(12, 0));
      !(e.kind == TableEvidence.MergedCell && e.anchor == Name(Pos(11, 0)))
  {
    ForeignNames();
    AsciiNames(12);
    var s := Spelling(Foreign(), Foreign(), Name(Pos(12, 0)));
    t := Sheet(s);
    g := SheetIsCompactable(s);
    LastCell(s, g);
    TableEvidence.AnchorsAgree(t, g, Pos(12, 0));
  }
}
