/** The evidence index of a PDF table and the verdict on missing-data findings
    (app/checks/guardrails.py), compared with the compact form. */
module TableEvidence {
  import opened Options
  import opened CellNames
  import opened PdfTable
  import opened TableDecoding
  import opened PythonText

  datatype Kind = MergedCell | NonTextCell | EmptyCell | TextCell

  datatype Evidence = Evidence(kind: Kind, anchor: string, text: string)

  // ---- references in any case ----------------------------------------------------------------

  function Upper(c: char): char {
    if 'a' <= c <= 'z' then (c as int - 'a' as int + 'A' as int) as char else c
  }

  function UpperAll(s: string): string {
    if s == "" then "" else UpperAll(s[..|s| - 1]) + [Upper(s[|s| - 1])]
  }

  /** Letters of either case that a text starts with. */
  function AnyLetterCount(s: string): (n: nat)
    ensures n <= |s|
  {
    if s == "" || !IsLetter(Upper(s[0])) then 0 else 1 + AnyLetterCount(s[1..])
  }

  /** `_normalized_pdf_cell_name`: at most three letters and a number, or nothing. */
  function NormalizedName(value: Option<string>): string {
    var s := Strip(if value.Some? then value.value else "");
    var n := AnyLetterCount(s);
    if 1 <= n <= 3 && IsNumber(s[n..]) then UpperAll(s[..n]) + s[n..] else ""
  }

  // ---- the index ------------------------------------------------------------------------------

  function KindOf(c: Cell): Kind {
    if c.nonText.Some? then NonTextCell else if c.empty.Some? then EmptyCell else TextCell
  }

  function EvidenceOf(c: Cell, p: Pos): Evidence {
    var from := NormalizedName(c.inherited);
    if from != "" then Evidence(MergedCell, from, if from == Name(p) then Strip(c.text) else "")
    else Evidence(KindOf(c), Name(p), Strip(c.text))
  }

  predicate Indexed(p: Pos, body: seq<seq<Cell>>) { p.row < |body| && p.column < |body[p.row]| }

  /** The index of a table without spans, as TableSpans builds it: one entry per
      cell, under the name of its place. */
  ghost predicate IndexOk(index: map<string, Evidence>, body: seq<seq<Cell>>) {
    && (forall p :: Indexed(p, body) ==> Name(p) in index && index[Name(p)] == EvidenceOf(body[p.row][p.column], p))
    && (forall name <- index :: exists p :: Indexed(p, body) && Name(p) == name)
  }

  // ---- names of accepted references --------------------------------------------------------------

  lemma {:induction false} UpperLetters(s: string)
    requires IsLetters(s)
    ensures UpperAll(s) == s
  {
    if s != "" {
      UpperLetters(s[..|s| - 1]);
      assert s == s[..|s| - 1] + [s[|s| - 1]];
    }
  }

  lemma {:induction false} SameLetterCount(s: string)
    requires LetterCount(s) < |s| && DigitValue(s[LetterCount(s)]).Some?
    ensures AnyLetterCount(s) == LetterCount(s)
  {
    if LetterCount(s) > 0 { SameLetterCount(s[1..]); }
  }

  lemma DigitIsNoLetter(c: char)
    requires IsAscii(c)
    ensures !IsLetter(Upper(c)) && !IsSpace(c)
  {
  }

  lemma NumberEnds(s: string)
    requires IsNumber(s)
    ensures DigitValue(s[|s| - 1]).Some? && IsAscii(s[0])
  {
  }

  lemma DigitIsNoSpace(c: char)
    requires DigitValue(c).Some?
    ensures !IsSpace(c)
  {
  }

  /** A reference of at most three letters is its own normalized name; a longer one has none. */
  lemma ReferenceName(s: string)
    requires IsReference(s)
    ensures NormalizedName(Some(s)) == if LetterCount(s) <= 3 then s else ""
  {
    var n := LetterCount(s);
    NumberEnds(s[n..]);
    DigitIsNoLetter(s[n]);
    DigitIsNoSpace(s[|s| - 1]);
    LetterAtStart(s);
    assert Strip(s) == s;
    SameLetterCount(s);
    UpperLetters(s[..n]);
    assert s == s[..n] + s[n..];
  }

  lemma LetterAtStart(s: string)
    requires LetterCount(s) > 0
    ensures IsLetter(s[0]) && !IsSpace(s[0])
  {
  }

  // ---- the two readings agree ------------------------------------------------------------------------

  /** The compact form shows p as the unquoted marker of an empty cell. */
  ghost predicate PrintsEmpty(g: Grid, p: Pos)
    requires Placed(g, |g.order|)
  {
    exists e :: e in EntriesOf(g, |g.order|) && e.first == p && e.content == Marked(Empty)
  }

  lemma {:induction false} EntryIn(g: Grid, n: nat, i: nat)
    requires i < n && Placed(g, n) && CellAt(g, i).inherited.None?
    ensures EntryOf(CellAt(g, i)) in EntriesOf(g, n)
  {
    if i < n - 1 { EntryIn(g, n - 1, i); }
  }

  lemma {:induction false} EntrySource(g: Grid, n: nat, e: Entry) returns (i: nat)
    requires Placed(g, n) && e in EntriesOf(g, n)
    ensures i < n && CellAt(g, i).inherited.None? && e == EntryOf(CellAt(g, i))
  {
    if CellAt(g, n - 1).inherited.None? && e == EntryOf(CellAt(g, n - 1)) { i := n - 1; } else { i := EntrySource(g, n - 1, e); }
  }

  lemma {:induction false} LaidAnchor(g: Grid, n: nat, i: nat, rows: nat, columns: nat)
    requires i < n && Placed(g, n) && Laid(g, n, rows, columns) && CellAt(g, i).inherited.None?
    ensures AnchorFits(g, i, rows, columns)
  {
    if i < n - 1 { LaidAnchor(g, n - 1, i, rows, columns); }
  }

  lemma OrderIndex(t: Table, g: Grid, p: Pos) returns (i: nat)
    requires Matched(t) && Compactable(t, g) && p in g.cells
    ensures i < |g.order| && g.order[i] == p
  {
    GridMembers(Rows(t), Columns(t));
    assert p in g.order;
    i :| 0 <= i < |g.order| && g.order[i] == p;
  }

  lemma EntryStartsAt(c: Cell, p: Pos, rows: nat, columns: nat)
    requires c.reference.Some? && AnchorOk(c, p, rows, columns)
    ensures EntryOf(c).first == p && EntryOf(c).content == ContentOf(c)
  {
  }

  lemma PrintedAnchor(g: Grid, rows: nat, columns: nat, e: Entry)
    requires Placed(g, |g.order|) && Laid(g, |g.order|, rows, columns)
    requires e in EntriesOf(g, |g.order|) && e.content == Marked(Empty)
    ensures e.first in g.cells && g.cells[e.first].inherited.None? && ContentOf(g.cells[e.first]) == Marked(Empty)
  {
    var i := EntrySource(g, |g.order|, e);
    LaidAnchor(g, |g.order|, i, rows, columns);
    EntryStartsAt(CellAt(g, i), g.order[i], rows, columns);
  }

  lemma PrintedIsEmpty(t: Table, g: Grid, e: Entry)
    requires Matched(t) && Compactable(t, g) && e in EntriesOf(g, |g.order|) && e.content == Marked(Empty)
    ensures e.first in g.cells && g.cells[e.first].inherited.None? && g.cells[e.first].empty.Some?
  {
    PrintedAnchor(g, Rows(t), Columns(t), e);
  }

  lemma EmptyIsPrinted(t: Table, g: Grid, p: Pos)
    requires Matched(t) && Compactable(t, g) && p in g.cells && g.cells[p].inherited.None? && g.cells[p].empty.Some?
    ensures PrintsEmpty(g, p)
  {
    var i := OrderIndex(t, g, p);
    EntryIn(g, |g.order|, i);
    LaidAnchor(g, |g.order|, i, Rows(t), Columns(t));
    EntryStartsAt(CellAt(g, i), p, Rows(t), Columns(t));
  }

  /** Exactly the true anchors with an empty mark print the empty marker. */
  lemma PrintsEmptyMeans(t: Table, g: Grid, p: Pos)
    requires Matched(t) && Compactable(t, g)
    ensures PrintsEmpty(g, p) <==> p in g.cells && g.cells[p].inherited.None? && g.cells[p].empty.Some?
  {
    if PrintsEmpty(g, p) {
      var e :| e in EntriesOf(g, |g.order|) && e.first == p && e.content == Marked(Empty);
      PrintedIsEmpty(t, g, e);
    }
    if p in g.cells && g.cells[p].inherited.None? && g.cells[p].empty.Some? { EmptyIsPrinted(t, g, p); }
  }

  /** Where an inherited position inherits from. */
  lemma Inheritance(t: Table, g: Grid, p: Pos) returns (a: Pos)
    requires Matched(t) && Compactable(t, g) && p in g.cells && g.cells[p].inherited.Some?
    ensures a in g.cells && a != p && g.cells[a].inherited.None? && g.cells[a].reference == g.cells[p].inherited
    ensures CellOk(g.cells[a], a) && g.cells[p].empty.None? && g.cells[p].nonText.None?
  {
    var i := CoveringAnchor(g, |g.order|, Rows(t), Columns(t), p);
    a := g.order[i];
    AcceptedCell(t, a);
    assert Inherits(g, a, Area(CellAt(g, i)));
  }

  lemma IndexAt(t: Table, g: Grid, index: map<string, Evidence>, p: Pos)
    requires Matched(t) && Compactable(t, g) && IndexOk(index, t.body) && p in g.cells
    ensures Name(p) in index && index[Name(p)] == EvidenceOf(g.cells[p], p)
  {
    EachRowOk(t.body, Columns(t), |t.body|, p.row);
    assert Indexed(p, t.body);
  }

  /** The index entry of a cell calls it empty exactly when the compact form prints the
      unquoted empty marker for it. */
  lemma EmptyCellsAgree(t: Table, g: Grid, p: Pos)
    requires Matched(t) && Compactable(t, g) && p in g.cells
    ensures EvidenceOf(g.cells[p], p).kind == EmptyCell <==> PrintsEmpty(g, p)
  {
    PrintsEmptyMeans(t, g, p);
    AcceptedCell(t, p);
    if g.cells[p].inherited.Some? { var a := Inheritance(t, g, p); } else { NoName(); }
  }

  lemma NoName()
    ensures NormalizedName(None) == ""
  {
  }

  /** A column whose name the index can read, spelled in ASCII. */
  predicate Nameable(reference: string)
    requires IsReference(reference)
  {
    Position(reference).column < NAMED_COLUMNS && AsciiReference(reference)
  }

  lemma NameableMeans(s: string)
    requires IsReference(s)
    ensures NormalizedName(Some(s)) == Name(Position(s)) <==> Nameable(s)
  {
    ReferenceName(s);
    ReferencesWriteBack(s);
    ShortReference(s);
    NameNotEmpty(Position(s));
  }

  lemma ShortReference(s: string)
    requires IsReference(s)
    ensures LetterCount(s) <= 3 <==> Position(s).column < NAMED_COLUMNS
  {
    ThreeLetters(Position(s).column + 1);
    ReferenceColumn(s);
  }

  lemma NameNotEmpty(p: Pos)
    ensures Name(p) != ""
  {
    LettersReadBack(p.column + 1);
  }

  lemma ReferenceColumn(s: string)
    requires IsReference(s)
    ensures LetterCount(s) == |ColumnLetters(Position(s).column + 1)|
  {
    LettersWriteBack(s[..LetterCount(s)]);
  }

  /** Both readings give an inherited position the same anchor exactly when the
      anchor's column is at most 18278 and its digits are ASCII ones. */
  lemma AnchorsAgree(t: Table, g: Grid, p: Pos)
    requires Matched(t) && Compactable(t, g) && p in g.cells && g.cells[p].inherited.Some?
    ensures var anchor := g.cells[p].inherited.value;
      && IsReference(anchor) && Position(anchor) in g.cells && Position(anchor) != p
      && (EvidenceOf(g.cells[p], p).kind == MergedCell && EvidenceOf(g.cells[p], p).anchor == Name(Position(anchor)) <==> Nameable(anchor))
  {
    var a := Inheritance(t, g, p);
    var anchor := g.cells[p].inherited.value;
    NameableMeans(anchor);
    NameNotEmpty(a);
    if Name(p) == Name(a) { NamesAreDistinct(p, a); }
  }

  // ---- the verdict on a missing-data finding -----------------------------------------------------------

  /** What the patterns find in a finding. */
  datatype Finding = Finding(placeholder: bool, dataMissing: bool, tables: set<string>, speaksOfTables: bool, cells: set<string>)

  datatype TableIndex = TableIndex(confidence: string, cells: map<string, Evidence>)

  predicate Supports(name: string, names: set<string>, cells: map<string, Evidence>) {
    && name in cells
    && match cells[name].kind
       case EmptyCell => true
       case MergedCell =>
         var anchor := cells[name].anchor;
         anchor in names && anchor in cells && cells[anchor].kind == EmptyCell
       case _ => false
  }

  predicate AllSupport(names: set<string>, cells: map<string, Evidence>) {
    forall name <- names :: Supports(name, names, cells)
  }

  /** `is_unsupported_pdf_table_data_missing_item` */
  predicate Unsupported(f: Finding, evidence: map<string, TableIndex>) {
    if evidence == map[] || f.placeholder || !f.dataMissing || (f.tables == {} && !f.speaksOfTables) then false
    else if |f.tables| != 1 then true
    else
      exists table <- f.tables ::
        || table !in evidence || evidence[table].confidence != "high" || f.cells == {}
        || !AllSupport(f.cells, evidence[table].cells)
  }

  /** The compact form shows the named position empty: by its own marker, or
      by the marker of the anchor it inherits from, named as well. */
  ghost predicate ShownEmpty(g: Grid, name: string, names: set<string>)
    requires Placed(g, |g.order|)
  {
    exists p :: p in g.cells && Name(p) == name && (PrintsEmpty(g, p) || InheritsEmpty(g, p, names))
  }

  ghost predicate InheritsEmpty(g: Grid, p: Pos, names: set<string>)
    requires Placed(g, |g.order|) && p in g.cells
  {
    && g.cells[p].inherited.Some? && IsReference(g.cells[p].inherited.value)
    && var a := Position(g.cells[p].inherited.value); Name(a) in names && PrintsEmpty(g, a)
  }

  lemma IndexName(t: Table, g: Grid, index: map<string, Evidence>, name: string) returns (p: Pos)
    requires Matched(t) && Compactable(t, g) && IndexOk(index, t.body) && name in index
    ensures p in g.cells && Name(p) == name && index[name] == EvidenceOf(g.cells[p], p)
  {
    p :| Indexed(p, t.body) && Name(p) == name;
    EachRowOk(t.body, Columns(t), |t.body|, p.row);
  }

  lemma MergedFrom(t: Table, g: Grid, index: map<string, Evidence>, p: Pos, a: Pos)
    requires Matched(t) && Compactable(t, g) && IndexOk(index, t.body) && p in g.cells && a in g.cells
    requires EvidenceOf(g.cells[p], p).kind == MergedCell && EvidenceOf(g.cells[p], p).anchor == Name(a)
    ensures g.cells[p].inherited.Some? && IsReference(g.cells[p].inherited.value) && Position(g.cells[p].inherited.value) == a
  {
    MergedAnchor(g.cells[p], p);
    InheritedIsReference(t, g, p);
    FromName(g.cells[p].inherited.value, a);
  }

  lemma InheritedIsReference(t: Table, g: Grid, p: Pos)
    requires Matched(t) && Compactable(t, g) && p in g.cells && g.cells[p].inherited.Some?
    ensures IsReference(g.cells[p].inherited.value)
  {
    var b := Inheritance(t, g, p);
  }

  lemma MergedAnchor(c: Cell, p: Pos)
    requires EvidenceOf(c, p).kind == MergedCell
    ensures c.inherited.Some? && EvidenceOf(c, p).anchor == NormalizedName(c.inherited)
  {
    NoName();
  }

  lemma FromName(s: string, a: Pos)
    requires IsReference(s) && NormalizedName(Some(s)) == Name(a)
    ensures Position(s) == a
  {
    ReferenceName(s);
    NameNotEmpty(a);
    assert s == Name(a);
    NamesReadBack(a);
  }

  /** A named cell that supports a finding is shown empty by the compact form. */
  lemma SupportIsShown(t: Table, g: Grid, index: map<string, Evidence>, name: string, names: set<string>)
    requires Matched(t) && Compactable(t, g) && IndexOk(index, t.body) && Supports(name, names, index)
    ensures ShownEmpty(g, name, names)
  {
    var p := IndexName(t, g, index, name);
    EmptyCellsAgree(t, g, p);
    if index[name].kind == MergedCell {
      var a := IndexName(t, g, index, index[name].anchor);
      EmptyCellsAgree(t, g, a);
      MergedFrom(t, g, index, p, a);
      assert InheritsEmpty(g, p, names);
    }
  }

  lemma ShownIsSupport(t: Table, g: Grid, index: map<string, Evidence>, p: Pos, names: set<string>)
    requires Matched(t) && Compactable(t, g) && IndexOk(index, t.body) && p in g.cells
    requires PrintsEmpty(g, p) || (InheritsEmpty(g, p, names) && Nameable(g.cells[p].inherited.value))
    ensures Supports(Name(p), names, index)
  {
    IndexAt(t, g, index, p);
    EmptyCellsAgree(t, g, p);
    if !PrintsEmpty(g, p) {
      var a := Position(g.cells[p].inherited.value);
      AnchorsAgree(t, g, p);
      IndexAt(t, g, index, a);
      EmptyCellsAgree(t, g, a);
    }
  }

  ghost predicate AllNameable(g: Grid) {
    forall p <- g.cells :: g.cells[p].inherited.Some? && IsReference(g.cells[p].inherited.value) ==> Nameable(g.cells[p].inherited.value)
  }

  lemma ShownSupports(t: Table, g: Grid, index: map<string, Evidence>, name: string, names: set<string>)
    requires Matched(t) && Compactable(t, g) && IndexOk(index, t.body)
    requires ShownEmpty(g, name, names) && AllNameable(g)
    ensures Supports(name, names, index)
  {
    var p :| p in g.cells && Name(p) == name && (PrintsEmpty(g, p) || InheritsEmpty(g, p, names));
    ShownIsSupport(t, g, index, p, names);
  }

  /** A missing-data finding about a high-confidence table that is kept names
      only cells the compact form shows empty. */
  lemma KeptIsShownEmpty(t: Table, g: Grid, index: map<string, Evidence>, f: Finding, id: string, evidence: map<string, TableIndex>)
    requires Matched(t) && Compactable(t, g) && IndexOk(index, t.body)
    requires f.tables == {id} && f.dataMissing && !f.placeholder && id in evidence && evidence[id].cells == index
    requires !Unsupported(f, evidence)
    ensures f.cells != {} && evidence[id].confidence == "high" && forall name <- f.cells :: ShownEmpty(g, name, f.cells)
  {
    assert |f.tables| == 1;
    forall name | name in f.cells ensures ShownEmpty(g, name, f.cells) { SupportIsShown(t, g, index, name, f.cells); }
  }

  lemma SupportedIsKept(f: Finding, id: string, evidence: map<string, TableIndex>)
    requires f.tables == {id} && id in evidence && evidence[id].confidence == "high" && f.cells != {}
    requires forall name <- f.cells :: Supports(name, f.cells, evidence[id].cells)
    ensures !Unsupported(f, evidence)
  {
    assert |f.tables| == 1 && AllSupport(f.cells, evidence[id].cells);
  }

  /** And it is kept when it names only such cells, as long as every anchor's
      name is one the index can read. */
  lemma ShownEmptyIsKept(t: Table, g: Grid, index: map<string, Evidence>, f: Finding, id: string, evidence: map<string, TableIndex>)
    requires Matched(t) && Compactable(t, g) && IndexOk(index, t.body)
    requires f.tables == {id} && id in evidence && evidence[id] == TableIndex("high", index)
    requires f.cells != {} && forall name <- f.cells :: ShownEmpty(g, name, f.cells)
    requires AllNameable(g)
    ensures !Unsupported(f, evidence)
  {
    forall name | name in f.cells ensures Supports(name, f.cells, index) { ShownSupports(t, g, index, name, f.cells); }
    SupportedIsKept(f, id, evidence);
  }
}
