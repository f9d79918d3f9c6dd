/** Checking and compacting a normalized PDF table
    (app/models/document_input.py). Every ValueError of the source becomes a
    refusal, and a refused table keeps its original text. */
module PdfTable {
  import opened Options
  import opened CellNames

  /** What int() makes of an attribute. */
  datatype Number = Int(value: int) | Malformed

  datatype State = Empty | NonText | Unresolved

  /** The attributes of a `td` by name, and its unescaped text;
      `otherAttributes` tells of unknown or repeated ones. */
  datatype Cell = Cell(
    reference: Option<string>, range: Option<string>, rowspan: Option<Number>, colspan: Option<Number>,
    inherited: Option<string>, empty: Option<string>, nonText: Option<string>, unresolved: Option<string>,
    otherAttributes: bool, text: string)

  datatype Confidence = High | Medium | Low

  /** A matched table; `unresolved` are the positions its trailing comment lists. */
  datatype Table = Table(
    id: string, rows: string, columns: string, confidence: Confidence, body: seq<seq<Cell>>, unresolved: seq<string>)

  /** What the table pattern guarantees. */
  ghost predicate Matched(t: Table) {
    IsNumber(t.rows) && IsNumber(t.columns) && '\n' !in t.id
  }

  function Rows(t: Table): nat
    requires Matched(t)
  {
    Value(t.rows)
  }

  function Columns(t: Table): nat
    requires Matched(t)
  {
    Value(t.columns)
  }

  function Marker(s: State): string {
    match s
    case Empty => "[空单元格]"
    case NonText => "[非文本图形或图标]"
    case Unresolved => "[未能可靠还原的单元格]"
  }

  // ---- one cell ---------------------------------------------------------------------------------

  predicate StateFits(attribute: Option<string>, s: State, text: string) {
    attribute.Some? ==> attribute.value == "true" && text == Marker(s)
  }

  predicate OneState(c: Cell) {
    && !(c.empty.Some? && c.nonText.Some?) && !(c.empty.Some? && c.unresolved.Some?) && !(c.nonText.Some? && c.unresolved.Some?)
    && StateFits(c.empty, Empty, c.text) && StateFits(c.nonText, NonText, c.text) && StateFits(c.unresolved, Unresolved, c.text)
  }

  function StateOf(c: Cell): Option<State> {
    if c.empty.Some? then Some(Empty) else if c.nonText.Some? then Some(NonText) else if c.unresolved.Some? then Some(Unresolved) else None
  }

  predicate CellOk(c: Cell, p: Pos) {
    && !c.otherAttributes && c.reference.Some? && IsReference(c.reference.value) && Position(c.reference.value) == p
    && OneState(c)
  }

  // ---- the whole grid, in row-major order -------------------------------------------------------

  /** Positions of the first `columns` cells of a row. */
  function RowOrder(row: nat, columns: nat): seq<Pos> {
    if columns == 0 then [] else RowOrder(row, columns - 1) + [Pos(row, columns - 1)]
  }

  function GridOrder(rows: nat, columns: nat): seq<Pos> {
    if rows == 0 then [] else GridOrder(rows - 1, columns) + RowOrder(rows - 1, columns)
  }

  lemma {:induction false} RowMembers(row: nat, columns: nat)
    ensures |RowOrder(row, columns)| == columns
    ensures forall k :: 0 <= k < columns ==> RowOrder(row, columns)[k] == Pos(row, k)
    ensures forall p :: p in RowOrder(row, columns) <==> p.row == row && p.column < columns
  {
    if columns > 0 { RowMembers(row, columns - 1); }
  }

  lemma JoinMembers(above: seq<Pos>, last: seq<Pos>, row: nat, columns: nat)
    requires forall p :: p in above <==> p.row < row && p.column < columns
    requires forall p :: p in last <==> p.row == row && p.column < columns
    ensures forall p :: p in above + last <==> p.row < row + 1 && p.column < columns
  {
  }

  lemma {:induction false} GridMembers(rows: nat, columns: nat)
    ensures forall p :: p in GridOrder(rows, columns) <==> p.row < rows && p.column < columns
  {
    if rows > 0 {
      GridMembers(rows - 1, columns);
      RowMembers(rows - 1, columns);
      JoinMembers(GridOrder(rows - 1, columns), RowOrder(rows - 1, columns), rows - 1, columns);
    }
  }

  predicate Earlier(p: Pos, q: Pos) { p.row < q.row || (p.row == q.row && p.column < q.column) }

  ghost predicate InOrder(s: seq<Pos>) {
    forall i, k :: 0 <= i < k < |s| ==> Earlier(s[i], s[k])
  }

  lemma OrderAppend(above: seq<Pos>, last: seq<Pos>, row: nat)
    requires InOrder(above) && InOrder(last)
    requires (forall p <- above :: p.row < row) && forall p <- last :: p.row == row
    ensures InOrder(above + last)
  {
    var s := above + last;
    forall i, k | 0 <= i < k < |s| ensures Earlier(s[i], s[k]) {
      if i < |above| <= k { assert s[i] in above && s[k] in last; }
    }
  }

  /** Positions are gathered row by row and from left to right. */
  lemma {:induction false} GridIsOrdered(rows: nat, columns: nat)
    ensures InOrder(GridOrder(rows, columns))
  {
    if rows > 0 {
      GridIsOrdered(rows - 1, columns);
      GridMembers(rows - 1, columns);
      RowMembers(rows - 1, columns);
      OrderAppend(GridOrder(rows - 1, columns), RowOrder(rows - 1, columns), rows - 1);
    }
  }

  function UnresolvedInRow(row: seq<Cell>): seq<string> {
    if row == [] then []
    else
      var c := row[|row| - 1];
      UnresolvedInRow(row[..|row| - 1]) + if c.unresolved.Some? && c.reference.Some? then [c.reference.value] else []
  }

  lemma {:induction false} ListedInRow(row: seq<Cell>, id: string)
    ensures id in UnresolvedInRow(row) <==> exists c :: c in row && c.unresolved.Some? && c.reference == Some(id)
  {
    if row != [] {
      ListedInRow(row[..|row| - 1], id);
      assert row == row[..|row| - 1] + [row[|row| - 1]];
    }
  }

  /** The trailing comment lists exactly the references of the unresolved cells. */
  lemma {:induction false} ListedExactly(body: seq<seq<Cell>>, id: string)
    ensures id in UnresolvedInRows(body) <==> exists row, c :: row in body && c in row && c.unresolved.Some? && c.reference == Some(id)
  {
    if body != [] {
      ListedExactly(body[..|body| - 1], id);
      ListedInRow(body[|body| - 1], id);
      assert body == body[..|body| - 1] + [body[|body| - 1]];
    }
  }

  function UnresolvedInRows(body: seq<seq<Cell>>): seq<string> {
    if body == [] then [] else UnresolvedInRows(body[..|body| - 1]) + UnresolvedInRow(body[|body| - 1])
  }

  /** The first `j` cells of row `i` are in order. */
  predicate CellsOk(row: seq<Cell>, i: nat, j: nat)
    requires j <= |row|
  {
    j == 0 || (CellsOk(row, i, j - 1) && CellOk(row[j - 1], Pos(i, j - 1)))
  }

  predicate RowOk(row: seq<Cell>, i: nat, columns: nat) {
    |row| == columns && CellsOk(row, i, columns)
  }

  /** The first `i` rows are in order. */
  predicate RowsOk(body: seq<seq<Cell>>, columns: nat, i: nat)
    requires i <= |body|
  {
    i == 0 || (RowsOk(body, columns, i - 1) && RowOk(body[i - 1], i - 1, columns))
  }

  lemma {:induction false} EachRowOk(body: seq<seq<Cell>>, columns: nat, i: nat, k: nat)
    requires k < i <= |body| && RowsOk(body, columns, i)
    ensures RowOk(body[k], k, columns)
  {
    if k < i - 1 { EachRowOk(body, columns, i - 1, k); }
  }

  lemma {:induction false} BadRow(body: seq<seq<Cell>>, columns: nat, i: nat, k: nat)
    requires k < i <= |body| && !RowOk(body[k], k, columns)
    ensures !RowsOk(body, columns, i)
  {
    if k < i - 1 { BadRow(body, columns, i - 1, k); }
  }

  lemma {:induction false} EachCellOk(row: seq<Cell>, i: nat, j: nat, k: nat)
    requires k < j <= |row| && CellsOk(row, i, j)
    ensures CellOk(row[k], Pos(i, k))
  {
    if k < j - 1 { EachCellOk(row, i, j - 1, k); }
  }

  lemma {:induction false} BadCell(row: seq<Cell>, i: nat, j: nat, k: nat)
    requires k < j <= |row| && !CellOk(row[k], Pos(i, k))
    ensures !CellsOk(row, i, j)
  {
    if k < j - 1 { BadCell(row, i, j - 1, k); }
  }

  ghost predicate Accepted(t: Table)
    requires Matched(t)
  {
    |t.body| == Rows(t) && RowsOk(t.body, Columns(t), |t.body|) && UnresolvedInRows(t.body) == t.unresolved
  }

  /** The dictionary of cells, with its insertion order. */
  datatype Grid = Grid(order: seq<Pos>, cells: map<Pos, Cell>)

  /** Read so far: the first `i` rows, and the first `j` cells of the next. */
  predicate Seen(p: Pos, columns: nat, i: nat, j: nat) {
    p.column < columns && (p.row < i || (p.row == i && p.column < j))
  }

  ghost predicate Gathered(g: Grid, body: seq<seq<Cell>>, columns: nat, i: nat, j: nat)
    requires i <= |body|
  {
    && (forall k :: 0 <= k < i ==> |body[k]| == columns)
    && (j > 0 ==> i < |body| && j <= columns == |body[i]|)
    && (forall p :: p in g.cells <==> Seen(p, columns, i, j))
    && (forall p :: Seen(p, columns, i, j) ==> g.cells[p] == body[p.row][p.column])
    && g.order == GridOrder(i, columns) + RowOrder(i, j)
  }

  ghost predicate GridOf(g: Grid, t: Table)
    requires Matched(t) && Accepted(t)
  {
    && (forall p :: p in g.cells <==> p.row < Rows(t) && p.column < Columns(t))
    && (forall p <- g.cells :: p.row < |t.body| && p.column < |t.body[p.row]| && g.cells[p] == t.body[p.row][p.column])
    && g.order == GridOrder(Rows(t), Columns(t))
  }

  function AddCell(g: Grid, p: Pos, c: Cell): Grid { Grid(g.order + [p], g.cells[p := c]) }

  lemma NextUnresolved(row: seq<Cell>, j: nat)
    requires j < |row|
    ensures UnresolvedInRow(row[..j + 1]) == UnresolvedInRow(row[..j]) + if row[j].unresolved.Some? && row[j].reference.Some? then [row[j].reference.value] else []
  {
    assert row[..j + 1][..j] == row[..j];
  }

  lemma GatherCell(g: Grid, body: seq<seq<Cell>>, columns: nat, i: nat, j: nat)
    requires i < |body| && |body[i]| == columns && j < columns && Gathered(g, body, columns, i, j)
    ensures Gathered(AddCell(g, Pos(i, j), body[i][j]), body, columns, i, j + 1)
  {
    var after := AddCell(g, Pos(i, j), body[i][j]);
    forall p ensures p in after.cells <==> Seen(p, columns, i, j + 1) {
      assert p in g.cells <==> Seen(p, columns, i, j);
    }
    forall p | Seen(p, columns, i, j + 1) ensures after.cells[p] == body[p.row][p.column] {
      if p != Pos(i, j) { assert Seen(p, columns, i, j); }
    }
    assert after.order == GridOrder(i, columns) + RowOrder(i, j + 1);
  }

  function AddCells(g: Grid, row: seq<Cell>, i: nat, j: nat): Grid
    requires j <= |row|
  {
    if j == 0 then g else AddCell(AddCells(g, row, i, j - 1), Pos(i, j - 1), row[j - 1])
  }

  lemma GatherOneMore(g: Grid, body: seq<seq<Cell>>, columns: nat, i: nat, j: nat)
    requires i < |body| && |body[i]| == columns && j < columns && Gathered(AddCells(g, body[i], i, j), body, columns, i, j)
    ensures Gathered(AddCells(g, body[i], i, j + 1), body, columns, i, j + 1)
  {
    GatherCell(AddCells(g, body[i], i, j), body, columns, i, j);
  }

  lemma {:induction false} GatherCells(g: Grid, body: seq<seq<Cell>>, columns: nat, i: nat, j: nat)
    requires i < |body| && |body[i]| == columns && j <= columns && Gathered(g, body, columns, i, 0)
    ensures Gathered(AddCells(g, body[i], i, j), body, columns, i, j)
    decreases j
  {
    if j == 0 {
      assert AddCells(g, body[i], i, j) == g;
    } else {
      GatherCells(g, body, columns, i, j - 1);
      GatherOneMore(g, body, columns, i, j - 1);
    }
  }

  lemma FinishRow(g: Grid, body: seq<seq<Cell>>, columns: nat, i: nat)
    requires i < |body| && |body[i]| == columns && Gathered(g, body, columns, i, columns)
    ensures Gathered(g, body, columns, i + 1, 0)
  {
    assert RowOrder(i + 1, 0) == [];
    forall p ensures Seen(p, columns, i, columns) <==> Seen(p, columns, i + 1, 0) {
    }
  }

  lemma GatherNext(g: Grid, body: seq<seq<Cell>>, columns: nat, i: nat)
    requires i < |body| && |body[i]| == columns && Gathered(g, body, columns, i, 0)
    ensures Gathered(AddCells(g, body[i], i, columns), body, columns, i + 1, 0)
  {
    GatherCells(g, body, columns, i, columns);
    FinishRow(AddCells(g, body[i], i, columns), body, columns, i);
  }

  method ListUnresolved(row: seq<Cell>, j: nat, before: seq<string>, start: seq<string>) returns (listed: seq<string>)
    requires j < |row| && row[j].reference.Some? && before == start + UnresolvedInRow(row[..j])
    ensures listed == start + UnresolvedInRow(row[..j + 1])
  {
    NextUnresolved(row, j);
    listed := before + if row[j].unresolved.Some? then [row[j].reference.value] else [];
  }

  /** Reads one row into the dictionary. */
  method GatherRow(row: seq<Cell>, columns: nat, i: nat, before: Grid, unresolved: seq<string>) returns (g: Grid, ok: bool, listed: seq<string>)
    ensures ok <==> RowOk(row, i, columns)
    ensures ok ==> g == AddCells(before, row, i, columns) && listed == unresolved + UnresolvedInRow(row)
  {
    g, ok, listed := before, false, unresolved;
    if |row| != columns { return; }
    var j := 0;
    while j < columns
      invariant 0 <= j <= columns
      invariant g == AddCells(before, row, i, j)
      invariant CellsOk(row, i, j)
      invariant listed == unresolved + UnresolvedInRow(row[..j])
    {
      if !CellOk(row[j], Pos(i, j)) {
        BadCell(row, i, columns, j);
        return;
      }
      listed := ListUnresolved(row, j, listed, unresolved);
      g := AddCell(g, Pos(i, j), row[j]);
      j := j + 1;
    }
    assert row[..columns] == row;
    ok := true;
  }

  /** The dictionary of the first `i` rows. */
  function GridFrom(body: seq<seq<Cell>>, columns: nat, i: nat): Grid
    requires i <= |body| && RowsOk(body, columns, i)
  {
    if i == 0 then Grid([], map[]) else AddCells(GridFrom(body, columns, i - 1), body[i - 1], i - 1, columns)
  }

  lemma {:induction false} GatherRows(body: seq<seq<Cell>>, columns: nat, i: nat)
    requires i <= |body| && RowsOk(body, columns, i)
    ensures Gathered(GridFrom(body, columns, i), body, columns, i, 0)
  {
    if i > 0 {
      GatherRows(body, columns, i - 1);
      GatherNext(GridFrom(body, columns, i - 1), body, columns, i - 1);
    } else {
      GatherNothing(body, columns);
    }
  }

  lemma GatherNothing(body: seq<seq<Cell>>, columns: nat)
    ensures Gathered(Grid([], map[]), body, columns, 0, 0)
  {
    assert GridOrder(0, columns) == [] && RowOrder(0, 0) == [];
  }

  /** The dictionary holds every cell at its place, in row-major order. */
  lemma GridIsGathered(t: Table)
    requires Matched(t) && Accepted(t)
    ensures GridOf(GridFrom(t.body, Columns(t), |t.body|), t)
  {
    GatherRows(t.body, Columns(t), |t.body|);
    assert RowOrder(|t.body|, 0) == [];
    forall i | 0 <= i < |t.body| ensures |t.body[i]| == Columns(t) { EachRowOk(t.body, Columns(t), |t.body|, i); }
  }

  /** Reads every row. */
  method GatherBody(body: seq<seq<Cell>>, columns: nat) returns (g: Grid, ok: bool, listed: seq<string>)
    ensures ok <==> RowsOk(body, columns, |body|)
    ensures ok ==> g == GridFrom(body, columns, |body|) && listed == UnresolvedInRows(body)
  {
    g, ok, listed := Grid([], map[]), true, [];
    var i := 0;
    while i < |body|
      invariant 0 <= i <= |body| && ok && RowsOk(body, columns, i)
      invariant g == GridFrom(body, columns, i)
      invariant listed == UnresolvedInRows(body[..i])
    {
      g, ok, listed := GatherRow(body[i], columns, i, g, listed);
      if !ok {
        BadRow(body, columns, |body|, i);
        return;
      }
      assert body[..i + 1][..i] == body[..i];
      i := i + 1;
    }
    assert body[..i] == body;
  }

  /** `_normalized_cells`: accepts exactly the tables whose cells stand where
      they say, with at most one state each, and whose unresolved cells are the
      listed ones. */
  method NormalizedCells(t: Table) returns (r: Option<Grid>)
    requires Matched(t)
    ensures r.Some? <==> Accepted(t)
    ensures r.Some? ==> GridOf(r.value, t)
  {
    if |t.body| != Rows(t) { return None; }
    var g, ok, unresolved := GatherBody(t.body, Columns(t));
    if !ok || unresolved != t.unresolved { return None; }
    GridIsGathered(t);
    r := Some(g);
  }

  // ---- merged ranges -------------------------------------------------------------------------------

  function IndexOf(s: string, c: char): (i: nat)
    ensures i <= |s| && c !in s[..i] && (i < |s| ==> s[i] == c)
  {
    if s == "" || s[0] == c then 0
    else
      var i := 1 + IndexOf(s[1..], c);
      assert s[..i] == [s[0]] + s[1..][..i - 1];
      i
  }

  /** The text before the first colon. */
  function FirstPart(range: string): string { range[..IndexOf(range, ':')] }

  /** One reference, or two joined by a colon. */
  function RangeOf(range: string): Option<(Pos, Pos)> {
    var n := IndexOf(range, ':');
    var first := range[..n];
    var last := if n == |range| then first else range[n + 1..];
    if IsReference(first) && IsReference(last) && ':' !in last then Some((Position(first), Position(last))) else None
  }

  function CellRange(c: Cell): string
    requires c.reference.Some?
  {
    if c.range.Some? then c.range.value else c.reference.value
  }

  predicate SpanFits(attribute: Option<Number>, span: int) {
    (if attribute.Some? then attribute.value else Int(1)) == Int(span)
  }

  predicate AnchorOk(c: Cell, p: Pos, rows: nat, columns: nat)
    requires c.reference.Some?
  {
    match RangeOf(CellRange(c))
    case None => false
    case Some((first, last)) =>
      && first == p && first.row <= last.row < rows && first.column <= last.column < columns
      && SpanFits(c.rowspan, last.row - first.row + 1) && SpanFits(c.colspan, last.column - first.column + 1)
  }

  function Rectangle(first: Pos, last: Pos): set<Pos> {
    set r: nat, c: nat | first.row <= r <= last.row && first.column <= c <= last.column :: Pos(r, c)
  }

  /** The positions a cell's range covers. */
  function Area(c: Cell): set<Pos>
    requires c.reference.Some?
  {
    match RangeOf(CellRange(c))
    case None => {}
    case Some((first, last)) => Rectangle(first, last)
  }

  /** What an inherited position shows for its anchor's content. */
  function InheritedText(state: Option<State>, text: string, reference: string): string {
    match state
    case Some(NonText) => "[合并覆盖，继承自" + reference + "的非文本内容]"
    case Some(Empty) => "[合并覆盖，继承自" + reference + "]"
    case _ => text
  }

  /** `_validate_inherited_cell` */
  predicate InheritedOk(inherited: Cell, anchor: Cell)
    requires anchor.reference.Some?
  {
    && inherited.inherited == anchor.reference && inherited.range == Some(CellRange(anchor))
    && inherited.rowspan.None? && inherited.colspan.None?
    && inherited.empty.None? && inherited.nonText.None? && inherited.unresolved.None?
    && inherited.text == InheritedText(StateOf(anchor), anchor.text, anchor.reference.value)
  }

  // ---- the compact entries ----------------------------------------------------------------------------

  datatype Content = Text(text: string) | Marked(state: State)

  datatype Entry = Entry(range: string, first: Pos, last: Pos, content: Content)

  function ContentOf(c: Cell): Content {
    if StateOf(c).Some? then Marked(StateOf(c).value) else Text(c.text)
  }

  function EntryOf(c: Cell): Entry
    requires c.reference.Some?
  {
    var bounds := if RangeOf(CellRange(c)).Some? then RangeOf(CellRange(c)).value else (Pos(0, 0), Pos(0, 0));
    Entry(CellRange(c), bounds.0, bounds.1, ContentOf(c))
  }

  /** Every ordered position has a cell that names itself. */
  ghost predicate Placed(g: Grid, n: nat) {
    n <= |g.order| && forall i :: 0 <= i < n ==> g.order[i] in g.cells && g.cells[g.order[i]].reference.Some?
  }

  function CellAt(g: Grid, i: nat): Cell
    requires Placed(g, i + 1)
  {
    g.cells[g.order[i]]
  }

  /** One entry for each of the first n cells that is not inherited. */
  function EntriesOf(g: Grid, n: nat): seq<Entry>
    requires Placed(g, n)
  {
    if n == 0 then []
    else EntriesOf(g, n - 1) + if CellAt(g, n - 1).inherited.None? then [EntryOf(CellAt(g, n - 1))] else []
  }

  /** The positions covered by the first n cells' ranges. */
  ghost function Areas(g: Grid, n: nat): set<Pos>
    requires Placed(g, n)
  {
    if n == 0 then {}
    else Areas(g, n - 1) + if CellAt(g, n - 1).inherited.None? then Area(CellAt(g, n - 1)) else {}
  }

  /** Everything else in an anchor's range is inherited from it. */
  ghost predicate Inherits(g: Grid, p: Pos, area: set<Pos>)
    requires p in g.cells && g.cells[p].reference.Some?
  {
    forall q :: q in area && q != p ==> q in g.cells && InheritedOk(g.cells[q], g.cells[p])
  }

  ghost predicate AnchorFits(g: Grid, i: nat, rows: nat, columns: nat)
    requires Placed(g, i + 1)
  {
    AnchorOk(CellAt(g, i), g.order[i], rows, columns) && Inherits(g, g.order[i], Area(CellAt(g, i)))
  }

  /** The ranges of the first n cells are in order and do not overlap. */
  ghost predicate Laid(g: Grid, n: nat, rows: nat, columns: nat)
    requires Placed(g, n)
  {
    n == 0 || (Laid(g, n - 1, rows, columns)
               && (CellAt(g, n - 1).inherited.None? ==>
                     AnchorFits(g, n - 1, rows, columns) && Area(CellAt(g, n - 1)) !! Areas(g, n - 1)))
  }

  /** The ranges of the anchors tile the grid. */
  ghost predicate Tiled(g: Grid, rows: nat, columns: nat)
    requires Placed(g, |g.order|)
  {
    Laid(g, |g.order|, rows, columns) && Areas(g, |g.order|) == g.cells.Keys
  }

  /** One row of a range: every position new, and inherited unless it is the anchor. */
  ghost predicate Coverable(g: Grid, covered: set<Pos>, p: Pos, q: Pos)
    requires p in g.cells && g.cells[p].reference.Some?
  {
    q !in covered && (q != p ==> q in g.cells && InheritedOk(g.cells[q], g.cells[p]))
  }

  /** The double loop over a range. */
  method CoverRange(g: Grid, before: set<Pos>, p: Pos, last: Pos) returns (ok: bool, covered: set<Pos>)
    requires p in g.cells && g.cells[p].reference.Some?
    requires p.row <= last.row && p.column <= last.column
    requires forall q <- Rectangle(p, last) :: q in g.cells
    ensures ok <==> forall q <- Rectangle(p, last) :: Coverable(g, before, p, q)
    ensures ok ==> covered == before + Rectangle(p, last)
  {
    covered := before;
    var row := p.row;
    while row <= last.row
      invariant p.row <= row <= last.row + 1
      invariant forall q: Pos :: q in covered <==> q in before || (q in Rectangle(p, last) && q.row < row)
      invariant forall q <- Rectangle(p, last) :: q.row < row ==> Coverable(g, before, p, q)
      decreases last.row - row
    {
      var column := p.column;
      while column <= last.column
        invariant p.column <= column <= last.column + 1
        invariant forall q: Pos :: q in covered <==> q in before || (q in Rectangle(p, last) && (q.row < row || (q.row == row && q.column < column)))
        invariant forall q <- Rectangle(p, last) :: q.row < row || (q.row == row && q.column < column) ==> Coverable(g, before, p, q)
        decreases last.column - column
      {
        var q := Pos(row, column);
        assert q in Rectangle(p, last);
        if q in covered { return false, covered; }
        covered := covered + {q};
        if q != p && !InheritedOk(g.cells[q], g.cells[p]) { return false, covered; }
        column := column + 1;
      }
      row := row + 1;
    }
    ok := true;
  }

  lemma {:induction false} LaidPrefix(g: Grid, k: nat, n: nat, rows: nat, columns: nat)
    requires k <= n && Placed(g, n) && Placed(g, k) && Laid(g, n, rows, columns)
    ensures Laid(g, k, rows, columns)
  {
    if k < n { LaidPrefix(g, k, n - 1, rows, columns); }
  }

  lemma CoverMeans(g: Grid, covered: set<Pos>, p: Pos, area: set<Pos>)
    requires p in g.cells && g.cells[p].reference.Some?
    ensures (forall q <- area :: Coverable(g, covered, p, q)) <==> Inherits(g, p, area) && area !! covered
  {
    if forall q <- area :: Coverable(g, covered, p, q) {
      forall q | q in area && q != p ensures q in g.cells && InheritedOk(g.cells[q], g.cells[p]) { assert Coverable(g, covered, p, q); }
      forall q | q in area ensures q !in covered { assert Coverable(g, covered, p, q); }
    }
  }

  ghost predicate FullGrid(g: Grid, rows: nat, columns: nat) {
    && Placed(g, |g.order|)
    && (forall p :: p in g.cells <==> p.row < rows && p.column < columns)
  }

  /** The end of an anchor's range, when the range is in order. */
  function LastOf(c: Cell, p: Pos, rows: nat, columns: nat): (last: Option<Pos>)
    requires c.reference.Some?
    ensures last.Some? <==> AnchorOk(c, p, rows, columns)
    ensures last.Some? ==> Area(c) == Rectangle(p, last.value) && p.row <= last.value.row < rows && p.column <= last.value.column < columns
  {
    if AnchorOk(c, p, rows, columns) then Some(RangeOf(CellRange(c)).value.1) else None
  }

  /** One turn of the loop: an inherited cell is passed over, and an anchor is
      refused unless its range is in order, new and inherited. */
  method CompactCell(g: Grid, k: nat, covered: set<Pos>, rows: nat, columns: nat) returns (r: Option<set<Pos>>)
    requires FullGrid(g, rows, columns) && k < |g.order| && Placed(g, k) && Placed(g, k + 1)
    requires covered == Areas(g, k) && Laid(g, k, rows, columns)
    ensures r.Some? <==> Laid(g, k + 1, rows, columns)
    ensures r.Some? ==> r.value == Areas(g, k + 1)
  {
    var p := g.order[k];
    var c := g.cells[p];
    if c.inherited.Some? { return Some(covered); }
    var last := LastOf(c, p, rows, columns);
    if last.None? { return None; }
    forall q | q in Rectangle(p, last.value) ensures q in g.cells { }
    var ok, after := CoverRange(g, covered, p, last.value);
    CoverMeans(g, covered, p, Area(c));
    r := if ok then Some(after) else None;
  }

  lemma KeysFromSizes(covered: set<Pos>, keys: set<Pos>)
    requires covered <= keys
    ensures |covered| == |keys| <==> covered == keys
  {
    if covered != keys {
      assert |keys| == |covered| + |keys - covered|;
    }
  }

  lemma AreaInGrid(g: Grid, k: nat, rows: nat, columns: nat)
    requires FullGrid(g, rows, columns) && k < |g.order| && AnchorFits(g, k, rows, columns)
    ensures Area(CellAt(g, k)) <= g.cells.Keys
  {
    var last := LastOf(CellAt(g, k), g.order[k], rows, columns);
    forall q | q in Rectangle(g.order[k], last.value) ensures q in g.cells { }
  }

  /** The loop of `_compact_pdf_table`: succeeds exactly when the anchors'
      ranges tile the grid, and then lists one entry per anchor. */
  method CompactEntries(g: Grid, rows: nat, columns: nat) returns (r: Option<seq<Entry>>)
    requires FullGrid(g, rows, columns)
    ensures r.Some? <==> Tiled(g, rows, columns)
    ensures r.Some? ==> r.value == EntriesOf(g, |g.order|)
  {
    var entries, covered := [], {};
    var k := 0;
    while k < |g.order|
      invariant 0 <= k <= |g.order|
      invariant Placed(g, k) && Laid(g, k, rows, columns)
      invariant entries == EntriesOf(g, k) && covered == Areas(g, k)
    {
      assert Placed(g, k + 1);
      var after := CompactCell(g, k, covered, rows, columns);
      if after.None? {
        NeverLaid(g, k + 1, rows, columns);
        return None;
      }
      covered := after.value;
      entries := entries + if CellAt(g, k).inherited.None? then [EntryOf(CellAt(g, k))] else [];
      k := k + 1;
    }
    AreasInGrid(g, k, rows, columns);
    KeysFromSizes(covered, g.cells.Keys);
    if |covered| != |g.cells| { return None; }
    r := Some(entries);
  }

  lemma {:induction false} AreasInGrid(g: Grid, n: nat, rows: nat, columns: nat)
    requires FullGrid(g, rows, columns) && n <= |g.order| && Placed(g, n) && Laid(g, n, rows, columns)
    ensures Areas(g, n) <= g.cells.Keys
  {
    if n > 0 {
      AreasInGrid(g, n - 1, rows, columns);
      if CellAt(g, n - 1).inherited.None? { AreaInGrid(g, n - 1, rows, columns); }
    }
  }

  lemma NeverLaid(g: Grid, k: nat, rows: nat, columns: nat)
    requires Placed(g, |g.order|) && k <= |g.order| && Placed(g, k) && !Laid(g, k, rows, columns)
    ensures !Laid(g, |g.order|, rows, columns)
  {
    if Laid(g, |g.order|, rows, columns) { LaidPrefix(g, k, |g.order|, rows, columns); }
  }
}
