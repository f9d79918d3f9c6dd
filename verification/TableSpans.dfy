/** How the evidence index of a table places cells that span rows and columns
    (app/checks/guardrails.py, build_pdf_table_evidence_index). */
module TableSpans {
  import opened Options
  import opened CellNames
  import opened PdfTable
  import opened TableEvidence
  import opened PythonText

  /** A cell with its `rowspan` and `colspan`, which the source takes as 1
      unless they are positive numbers. */
  datatype Spanned = Spanned(cell: Cell, rowspan: nat, colspan: nat)

  datatype Placed = Placed(cell: Spanned, at: Pos)

  /** The cell that every place shows so far. */
  datatype Board = Board(cells: map<Pos, Placed>)

  predicate Covers(p: Placed, q: Pos) {
    p.at.row <= q.row < p.at.row + p.cell.rowspan && p.at.column <= q.column < p.at.column + p.cell.colspan
  }

  function Put(b: Board, q: Pos, p: Placed): Board { Board(b.cells[q := p]) }

  function AreaOf(p: Placed): set<Pos> {
    set r: nat, c: nat | p.at.row <= r < p.at.row + p.cell.rowspan && p.at.column <= c < p.at.column + p.cell.colspan :: Pos(r, c)
  }

  /** The cell shows at every place it covers, and what was there shows elsewhere. */
  function Paint(b: Board, p: Placed): Board {
    Board(map q | q in b.cells.Keys + AreaOf(p) :: if Covers(p, q) then p else b.cells[q])
  }

  function RightOf(b: Board, row: nat, column: nat): set<Pos> { set p | p in b.cells && p.row == row && p.column >= column }

  lemma FewerRight(b: Board, row: nat, column: nat)
    requires Pos(row, column) in b.cells
    ensures |RightOf(b, row, column + 1)| < |RightOf(b, row, column)|
  {
    assert RightOf(b, row, column) == RightOf(b, row, column + 1) + {Pos(row, column)};
  }

  /** The first free place of a row from a column on. */
  function FirstFree(b: Board, row: nat, column: nat): (c: nat)
    ensures column <= c && Pos(row, c) !in b.cells && forall k :: column <= k < c ==> Pos(row, k) in b.cells
    decreases |RightOf(b, row, column)|
  {
    if Pos(row, column) !in b.cells then column
    else
      FewerRight(b, row, column);
      FirstFree(b, row, column + 1)
  }

  /** What is placed, what is shown, and where the next cell of the row may go. */
  datatype Layout = Layout(placed: seq<Placed>, board: Board, column: nat)

  function PlaceCell(l: Layout, row: nat, c: Spanned): Layout {
    var p := Placed(c, Pos(row, FirstFree(l.board, row, l.column)));
    Layout(l.placed + [p], Paint(l.board, p), p.at.column + c.colspan)
  }

  function PlaceRow(l: Layout, row: nat, cells: seq<Spanned>, n: nat): Layout
    requires n <= |cells|
  {
    if n == 0 then l.(column := 0) else PlaceCell(PlaceRow(l, row, cells, n - 1), row, cells[n - 1])
  }

  function PlaceRows(body: seq<seq<Spanned>>, n: nat): Layout
    requires n <= |body|
  {
    if n == 0 then Layout([], Board(map[]), 0) else PlaceRow(PlaceRows(body, n - 1), n - 1, body[n - 1], |body[n - 1]|)
  }

  // ---- the loops, for any naming of places and any way to show a cell -------------------------

  /** How a place is named, and what a cell shows there. */
  datatype Labels = Labels(name: Pos -> string, show: (Placed, Pos) -> Evidence)

  ghost predicate Apart(ls: Labels) { forall p, q :: ls.name(p) == ls.name(q) ==> p == q }

  /** The board under the names of its places: the source's cell map. */
  ghost function Named(b: Board, ls: Labels): map<string, Evidence>
    requires Apart(ls)
  {
    map p | p in b.cells :: ls.name(p) := ls.show(b.cells[p], p)
  }

  lemma NamedNext(b: Board, q: Pos, c: Placed, ls: Labels)
    requires Apart(ls)
    ensures Named(Put(b, q, c), ls) == Named(b, ls)[ls.name(q) := ls.show(c, q)]
  {
    var before, after := Named(b, ls), Named(Put(b, q, c), ls);
    forall name ensures name in after <==> name in before || name == ls.name(q) {
      if name in before { var p :| p in b.cells && ls.name(p) == name; assert p in Put(b, q, c).cells; }
      if name == ls.name(q) { assert q in Put(b, q, c).cells; }
    }
  }

  /** The places the double loop has reached: earlier rows, and this one before the column. */
  predicate Reached(p: Placed, row: nat, column: nat, q: Pos) {
    Covers(p, q) && (q.row < row || (q.row == row && q.column < column))
  }

  ghost predicate Painted(b: Board, board: Board, p: Placed, row: nat, column: nat) {
    && (forall q :: q in board.cells <==> q in b.cells || Reached(p, row, column, q))
    && (forall q <- board.cells :: board.cells[q] == if Reached(p, row, column, q) then p else b.cells[q])
  }

  lemma PaintedNext(b: Board, board: Board, p: Placed, q: Pos)
    requires Painted(b, board, p, q.row, q.column) && Covers(p, q)
    ensures Painted(b, Put(board, q, p), p, q.row, q.column + 1)
  {
    var after := Put(board, q, p);
    forall x ensures Reached(p, q.row, q.column + 1, x) <==> Reached(p, q.row, q.column, x) || x == q {}
  }

  lemma PaintedRow(b: Board, board: Board, p: Placed, row: nat)
    requires Painted(b, board, p, row, p.at.column + p.cell.colspan)
    ensures Painted(b, board, p, row + 1, p.at.column)
  {
    var end := p.at.column + p.cell.colspan;
    forall x ensures Reached(p, row + 1, p.at.column, x) <==> Reached(p, row, end, x) {}
  }

  lemma PaintedNone(b: Board, p: Placed)
    ensures Painted(b, b, p, p.at.row, p.at.column)
  {
  }

  lemma PaintedAll(b: Board, board: Board, p: Placed)
    requires Painted(b, board, p, p.at.row + p.cell.rowspan, p.at.column)
    ensures board == Paint(b, p)
  {
    forall x ensures Reached(p, p.at.row + p.cell.rowspan, p.at.column, x) <==> x in AreaOf(p) {}
    assert board.cells == Paint(b, p).cells;
  }

  method MarkPlace(before: map<string, Evidence>, ghost b: Board, ghost start: Board, p: Placed, q: Pos, ls: Labels)
    returns (index: map<string, Evidence>, ghost board: Board)
    requires Apart(ls) && before == Named(start, ls) && Painted(b, start, p, q.row, q.column) && Covers(p, q)
    ensures Painted(b, board, p, q.row, q.column + 1)
    ensures index == Named(board, ls)
  {
    NamedNext(start, q, p, ls);
    PaintedNext(b, start, p, q);
    index, board := before[ls.name(q) := ls.show(p, q)], Put(start, q, p);
  }

  method CoverRow(before: map<string, Evidence>, ghost b: Board, ghost start: Board, p: Placed, row: nat, ls: Labels)
    returns (index: map<string, Evidence>, ghost board: Board)
    requires Apart(ls) && before == Named(start, ls)
    requires p.at.row <= row < p.at.row + p.cell.rowspan && Painted(b, start, p, row, p.at.column)
    ensures Painted(b, board, p, row + 1, p.at.column)
    ensures index == Named(board, ls)
  {
    index, board := before, start;
    var column := p.at.column;
    while column < p.at.column + p.cell.colspan
      invariant p.at.column <= column <= p.at.column + p.cell.colspan && Painted(b, board, p, row, column)
      invariant index == Named(board, ls)
    {
      index, board := MarkPlace(index, b, board, p, Pos(row, column), ls);
      column := column + 1;
    }
    PaintedRow(b, board, p, row);
  }

  /** The double loop over the places a cell covers. */
  method CoverPlaces(before: map<string, Evidence>, ghost b: Board, p: Placed, ls: Labels)
    returns (index: map<string, Evidence>, ghost board: Board)
    requires Apart(ls) && before == Named(b, ls)
    ensures board == Paint(b, p)
    ensures index == Named(board, ls)
  {
    index, board := before, b;
    PaintedNone(b, p);
    var row := p.at.row;
    while row < p.at.row + p.cell.rowspan
      invariant p.at.row <= row <= p.at.row + p.cell.rowspan && Painted(b, board, p, row, p.at.column)
      invariant index == Named(board, ls)
    {
      index, board := CoverRow(index, b, board, p, row, ls);
      row := row + 1;
    }
    PaintedAll(b, board, p);
  }

  /** The loop that passes over names already in the map. */
  method SkipTaken(index: map<string, Evidence>, ghost b: Board, row: nat, start: nat, ls: Labels) returns (column: nat)
    requires Apart(ls) && index == Named(b, ls)
    ensures column == FirstFree(b, row, start)
  {
    column := start;
    while ls.name(Pos(row, column)) in index
      invariant start <= column && FirstFree(b, row, column) == FirstFree(b, row, start)
      decreases |RightOf(b, row, column)|
    {
      FewerRight(b, row, column);
      column := column + 1;
    }
  }

  method IndexRow(before: map<string, Evidence>, ghost l: Layout, row: nat, cells: seq<Spanned>, ls: Labels)
    returns (index: map<string, Evidence>, ghost after: Layout)
    requires Apart(ls) && before == Named(l.board, ls)
    ensures after == PlaceRow(l, row, cells, |cells|)
    ensures index == Named(after.board, ls)
  {
    index, after := before, l.(column := 0);
    var column, j := 0, 0;
    while j < |cells|
      invariant 0 <= j <= |cells| && after == PlaceRow(l, row, cells, j) && column == after.column
      invariant index == Named(after.board, ls)
    {
      column := SkipTaken(index, after.board, row, column, ls);
      ghost var board;
      index, board := CoverPlaces(index, after.board, Placed(cells[j], Pos(row, column)), ls);
      after := PlaceCell(after, row, cells[j]);
      column := column + cells[j].colspan;
      j := j + 1;
    }
  }

  method IndexRows(body: seq<seq<Spanned>>, ls: Labels) returns (index: map<string, Evidence>, ghost l: Layout)
    requires Apart(ls)
    ensures l == PlaceRows(body, |body|)
    ensures index == Named(l.board, ls)
  {
    index, l := map[], Layout([], Board(map[]), 0);
    var i := 0;
    while i < |body|
      invariant 0 <= i <= |body| && l == PlaceRows(body, i)
      invariant index == Named(l.board, ls)
    {
      index, l := IndexRow(index, l, i, body[i], ls);
      i := i + 1;
    }
  }

  // ---- the source's labels ----------------------------------------------------------------------

  /** What a placed cell says of a place. */
  function EvidenceAt(p: Placed, q: Pos): Evidence {
    var from := NormalizedName(p.cell.cell.inherited);
    var anchor := if from != "" then from else Name(p.at);
    if Name(q) == anchor then Evidence(if from != "" then MergedCell else KindOf(p.cell.cell), anchor, Strip(p.cell.cell.text))
    else Evidence(MergedCell, anchor, "")
  }

  const CELL_LABELS: Labels := Labels(Name, EvidenceAt)

  lemma CellLabelsApart()
    ensures Apart(CELL_LABELS)
  {
    forall p, q | CELL_LABELS.name(p) == CELL_LABELS.name(q) ensures p == q { NamesAreDistinct(p, q); }
  }

  // ---- what the placement means ---------------------------------------------------------------------

  /** The last of the cells that covers a place. */
  function LastOver(placed: seq<Placed>, q: Pos): Option<Placed> {
    if placed == [] then None
    else if Covers(placed[|placed| - 1], q) then Some(placed[|placed| - 1])
    else LastOver(placed[..|placed| - 1], q)
  }

  /** Every place shows the last cell that covers it, and no cell starts on a
      place that an earlier one covers. */
  ghost predicate LaidOut(l: Layout) {
    && (forall q :: LastOver(l.placed, q) == if q in l.board.cells then Some(l.board.cells[q]) else None)
    && (forall i, k :: 0 <= i < k < |l.placed| ==> !Covers(l.placed[i], l.placed[k].at))
  }

  lemma {:induction false} LastIsOver(placed: seq<Placed>, i: nat, q: Pos)
    requires i < |placed| && Covers(placed[i], q)
    ensures LastOver(placed, q).Some?
  {
    var n := |placed| - 1;
    if !Covers(placed[n], q) { LastIsOver(placed[..n], i, q); }
  }

  lemma PlaceCellLaysOut(l: Layout, row: nat, c: Spanned)
    requires LaidOut(l)
    ensures LaidOut(PlaceCell(l, row, c))
  {
    var v := PlaceCell(l, row, c);
    var p := v.placed[|l.placed|];
    assert v.placed[..|l.placed|] == l.placed;
    forall q ensures LastOver(v.placed, q) == if q in v.board.cells then Some(v.board.cells[q]) else None {
      assert LastOver(l.placed, q) == if q in l.board.cells then Some(l.board.cells[q]) else None;
    }
    forall i | 0 <= i < |l.placed| ensures !Covers(l.placed[i], p.at) {
      if Covers(l.placed[i], p.at) { LastIsOver(l.placed, i, p.at); }
    }
  }

  lemma {:induction false} PlaceRowLaysOut(l: Layout, row: nat, cells: seq<Spanned>, n: nat)
    requires n <= |cells| && LaidOut(l)
    ensures LaidOut(PlaceRow(l, row, cells, n))
    decreases n
  {
    if n > 0 {
      PlaceRowLaysOut(l, row, cells, n - 1);
      PlaceCellLaysOut(PlaceRow(l, row, cells, n - 1), row, cells[n - 1]);
    }
  }

  /** For every table, with any spans: the map holds exactly the covered places,
      each under its name and with what the last cell over it says; and no cell
      starts on a place an earlier one covers. */
  lemma {:induction false} PlacesShowTheLastCell(body: seq<seq<Spanned>>, n: nat, l: Layout)
    requires n <= |body| && l == PlaceRows(body, n)
    ensures LaidOut(l)
    decreases n
  {
    if n > 0 {
      var before := PlaceRows(body, n - 1);
      PlacesShowTheLastCell(body, n - 1, before);
      PlaceRowLaysOut(before, n - 1, body[n - 1], |body[n - 1]|);
    }
  }

  /** The map shows the layout: each covered place, under its name, with what
      the last cell over it says there, and nothing else. */
  ghost predicate Shows(index: map<string, Evidence>, placed: seq<Placed>, ls: Labels) {
    && (forall q :: ls.name(q) in index <==> LastOver(placed, q).Some?)
    && (forall q :: ls.name(q) in index ==> LastOver(placed, q).Some? && index[ls.name(q)] == ls.show(LastOver(placed, q).value, q))
    && (forall name <- index :: exists q :: ls.name(q) == name)
  }

  lemma NamedAt(b: Board, ls: Labels, q: Pos)
    requires Apart(ls)
    ensures ls.name(q) in Named(b, ls) <==> q in b.cells
    ensures q in b.cells ==> Named(b, ls)[ls.name(q)] == ls.show(b.cells[q], q)
  {
  }

  lemma NamedFrom(b: Board, ls: Labels, name: string) returns (q: Pos)
    requires Apart(ls) && name in Named(b, ls)
    ensures ls.name(q) == name
  {
    q :| q in b.cells && ls.name(q) == name;
  }

  lemma NamedShows(l: Layout, index: map<string, Evidence>, ls: Labels)
    requires Apart(ls) && LaidOut(l) && index == Named(l.board, ls)
    ensures Shows(index, l.placed, ls)
  {
    forall q
      ensures ls.name(q) in index <==> LastOver(l.placed, q).Some?
      ensures ls.name(q) in index ==> LastOver(l.placed, q).Some? && index[ls.name(q)] == ls.show(LastOver(l.placed, q).value, q)
    {
      NamedAt(l.board, ls, q);
    }
    forall name | name in index ensures exists q :: ls.name(q) == name { var q := NamedFrom(l.board, ls, name); }
  }

  /** The cell map of `build_pdf_table_evidence_index`: every cell goes to the
      first free place of its row and shows at all places it spans. */
  method BuildIndex(body: seq<seq<Spanned>>) returns (index: map<string, Evidence>)
    ensures Shows(index, PlaceRows(body, |body|).placed, CELL_LABELS)
  {
    ghost var l;
    CellLabelsApart();
    index, l := IndexRows(body, CELL_LABELS);
    PlacesShowTheLastCell(body, |body|, l);
    NamedShows(l, index, CELL_LABELS);
  }

  // ---- tables without spans -----------------------------------------------------------------------------

  function Single(c: Cell): Spanned { Spanned(c, 1, 1) }

  function SingleRow(row: seq<Cell>): (r: seq<Spanned>)
    ensures |r| == |row| && forall j :: 0 <= j < |row| ==> r[j] == Single(row[j])
  {
    if row == [] then [] else [Single(row[0])] + SingleRow(row[1..])
  }

  function SingleCells(body: seq<seq<Cell>>): (r: seq<seq<Spanned>>)
    ensures |r| == |body| && forall i :: 0 <= i < |body| ==> r[i] == SingleRow(body[i])
  {
    if body == [] then [] else [SingleRow(body[0])] + SingleCells(body[1..])
  }

  /** The first n cells of a row stand side by side, next to what was there. */
  ghost predicate RowPlaced(before: Board, after: Layout, row: nat, cells: seq<Spanned>, n: nat)
    requires n <= |cells|
  {
    && after.column == n
    && (forall q :: q in after.board.cells <==> q in before.cells || (q.row == row && q.column < n))
    && (forall q <- after.board.cells :: after.board.cells[q] ==
          if q.row == row && q.column < n then Placed(cells[q.column], q) else if q in before.cells then before.cells[q] else after.board.cells[q])
  }

  lemma SinglePaint(b: Board, c: Cell, at: Pos)
    ensures Paint(b, Placed(Single(c), at)) == Put(b, at, Placed(Single(c), at))
  {
    var p := Placed(Single(c), at);
    assert AreaOf(p) == {at};
    assert Paint(b, p).cells == Put(b, at, p).cells;
  }

  lemma SingleCellPlaced(before: Board, l: Layout, row: nat, cells: seq<Spanned>, n: nat, c: Cell)
    requires n < |cells| && cells[n] == Single(c) && RowPlaced(before, l, row, cells, n)
    requires forall q <- before.cells :: q.row != row
    ensures RowPlaced(before, PlaceCell(l, row, cells[n]), row, cells, n + 1)
  {
    assert FirstFree(l.board, row, n) == n;
    SinglePaint(l.board, c, Pos(row, n));
  }

  lemma {:induction false} SingleRowPlaced(l: Layout, row: nat, cells: seq<Cell>, n: nat)
    requires n <= |cells| && forall q <- l.board.cells :: q.row != row
    ensures RowPlaced(l.board, PlaceRow(l, row, SingleRow(cells), n), row, SingleRow(cells), n)
    decreases n
  {
    if n > 0 {
      SingleRowPlaced(l, row, cells, n - 1);
      SingleCellPlaced(l.board, PlaceRow(l, row, SingleRow(cells), n - 1), row, SingleRow(cells), n - 1, cells[n - 1]);
    }
  }

  /** The first n rows fill the grid, each cell at its own place. */
  ghost predicate GridPlaced(b: Board, body: seq<seq<Cell>>, n: nat)
    requires n <= |body|
  {
    && (forall q :: q in b.cells <==> q.row < n && q.column < |body[q.row]|)
    && (forall q <- b.cells :: b.cells[q] == Placed(Single(body[q.row][q.column]), q))
  }

  lemma GridNext(before: Board, after: Layout, body: seq<seq<Cell>>, n: nat)
    requires n < |body| && GridPlaced(before, body, n) && RowPlaced(before, after, n, SingleRow(body[n]), |SingleRow(body[n])|)
    ensures GridPlaced(after.board, body, n + 1)
  {
  }

  lemma {:induction false} SingleRowsPlaced(body: seq<seq<Cell>>, n: nat, l: Layout)
    requires n <= |body| && l == PlaceRows(SingleCells(body), n)
    ensures GridPlaced(l.board, body, n)
    decreases n
  {
    if n > 0 {
      var before, cells := PlaceRows(SingleCells(body), n - 1), SingleCells(body)[n - 1];
      SingleRowsPlaced(body, n - 1, before);
      NextRowPlaced(body, n - 1, before, cells);
    }
  }

  lemma NextRowPlaced(body: seq<seq<Cell>>, n: nat, l: Layout, cells: seq<Spanned>)
    requires n < |body| && cells == SingleRow(body[n]) && GridPlaced(l.board, body, n)
    ensures GridPlaced(PlaceRow(l, n, cells, |cells|).board, body, n + 1)
  {
    SingleRowPlaced(l, n, body[n], |body[n]|);
    GridNext(l.board, PlaceRow(l, n, cells, |cells|), body, n);
  }

  lemma SingleEvidence(c: Cell, p: Pos)
    ensures EvidenceAt(Placed(Single(c), p), p) == EvidenceOf(c, p)
  {
  }

  lemma SingleCellsAreLaidOut(body: seq<seq<Cell>>, l: Layout)
    requires l == PlaceRows(SingleCells(body), |body|)
    ensures GridPlaced(l.board, body, |body|) && LaidOut(l)
  {
    SingleRowsPlaced(body, |body|, l);
    PlacesShowTheLastCell(SingleCells(body), |body|, l);
  }

  /** For a table without spans, as every compacted one is, the map has one entry
      per cell under the name of its own place, and no others. */
  lemma SingleCellsAreIndexed(body: seq<seq<Cell>>, cells: seq<seq<Spanned>>, index: map<string, Evidence>)
    requires cells == SingleCells(body) && Shows(index, PlaceRows(cells, |cells|).placed, CELL_LABELS)
    ensures IndexOk(index, body)
  {
    var l := PlaceRows(cells, |cells|);
    SingleCellsAreLaidOut(body, l);
    GridIsIndexed(l, index, body);
  }

  lemma GridIsIndexed(l: Layout, index: map<string, Evidence>, body: seq<seq<Cell>>)
    requires GridPlaced(l.board, body, |body|) && LaidOut(l) && Shows(index, l.placed, CELL_LABELS)
    ensures IndexOk(index, body)
  {
    forall p | Indexed(p, body) ensures Name(p) in index && index[Name(p)] == EvidenceOf(body[p.row][p.column], p) {
      CellIsIndexed(l, index, body, p);
    }
    forall name | name in index ensures exists p :: Indexed(p, body) && Name(p) == name {
      var p := NameIsIndexed(l, index, body, name);
    }
  }

  lemma CellIsIndexed(l: Layout, index: map<string, Evidence>, body: seq<seq<Cell>>, p: Pos)
    requires GridPlaced(l.board, body, |body|) && LaidOut(l) && Shows(index, l.placed, CELL_LABELS) && Indexed(p, body)
    ensures Name(p) in index && index[Name(p)] == EvidenceOf(body[p.row][p.column], p)
  {
    assert p in l.board.cells && LastOver(l.placed, p) == Some(l.board.cells[p]);
    assert CELL_LABELS.name(p) in index;
    SingleEvidence(body[p.row][p.column], p);
  }

  lemma NameIsIndexed(l: Layout, index: map<string, Evidence>, body: seq<seq<Cell>>, name: string) returns (p: Pos)
    requires GridPlaced(l.board, body, |body|) && LaidOut(l) && Shows(index, l.placed, CELL_LABELS) && name in index
    ensures Indexed(p, body) && Name(p) == name
  {
    p :| CELL_LABELS.name(p) == name;
    assert LastOver(l.placed, p).Some? && p in l.board.cells;
  }
}
