/** The filter over the findings of one report (app/checks/guardrails.py):
    claims of missing visuals and unsupported claims of missing table data go,
    everything else stays as it is and in its order. */
module FindingFilter {
  import opened TableEvidence

  /** One entry of a report's list. `finding` is what the patterns find in it;
      only a `dictionary` is ever judged. */
  datatype Item<T> = Item(report: T, dictionary: bool, visualMissing: bool, finding: Finding)

  /** `is_unsupported_visual_missing_item` */
  predicate UnsupportedVisual<T>(item: Item<T>) { item.dictionary && !item.finding.placeholder && item.visualMissing }

  predicate Filtered<T>(item: Item<T>, evidence: map<string, TableIndex>) {
    item.dictionary && (UnsupportedVisual(item) || Unsupported(item.finding, evidence))
  }

  function KeptItems<T>(items: seq<Item<T>>, evidence: map<string, TableIndex>): seq<Item<T>> {
    if items == [] then []
    else KeptItems(items[..|items| - 1], evidence) + if Filtered(items[|items| - 1], evidence) then [] else [items[|items| - 1]]
  }

  // ---- what goes -------------------------------------------------------------------------------

  /** The index shows the cell empty, or merged into an empty one named as well. */
  predicate SeenEmpty(name: string, names: set<string>, cells: map<string, Evidence>) {
    && name in cells
    && ( || cells[name].kind == EmptyCell
         || (cells[name].kind == MergedCell && cells[name].anchor in names && cells[name].anchor in cells
             && cells[cells[name].anchor].kind == EmptyCell))
  }

  /** The finding names one table of high confidence and only empty cells of it. */
  ghost predicate Backed(f: Finding, evidence: map<string, TableIndex>) {
    && f.cells != {}
    && exists id :: f.tables == {id} && id in evidence && evidence[id].confidence == "high"
         && forall name <- f.cells :: SeenEmpty(name, f.cells, evidence[id].cells)
  }

  /** A claim of missing table data without a placeholder in its excerpt. */
  predicate ClaimsMissingData(f: Finding) {
    f.dataMissing && !f.placeholder && (f.tables != {} || f.speaksOfTables)
  }

  /** Exactly the claims of missing table data that the index does not back are
      unsupported, once there is an index at all. */
  lemma VerdictMeans(f: Finding, evidence: map<string, TableIndex>)
    ensures Unsupported(f, evidence) <==> evidence != map[] && ClaimsMissingData(f) && !Backed(f, evidence)
  {
    if |f.tables| == 1 {
      var table :| table in f.tables;
      OnlyTable(f.tables, table);
      if evidence != map[] && ClaimsMissingData(f) && table in evidence {
        assert AllSupport(f.cells, evidence[table].cells) <==> forall name <- f.cells :: SeenEmpty(name, f.cells, evidence[table].cells);
      }
    }
  }

  /** The places of the kept items, in order. */
  function KeptPlaces<T>(items: seq<Item<T>>, evidence: map<string, TableIndex>): seq<nat> {
    if items == [] then []
    else
      var n := |items| - 1;
      KeptPlaces(items[..n], evidence) + if Filtered(items[n], evidence) then [] else [n]
  }

  /** What is kept is what was there, in its order: the items at increasing
      places, and these are all but the filtered ones. */
  ghost predicate KeepsOrder<T>(items: seq<Item<T>>, kept: seq<Item<T>>, places: seq<nat>, evidence: map<string, TableIndex>) {
    && |places| == |kept|
    && (forall i, k :: 0 <= i < k < |places| ==> places[i] < places[k])
    && (forall i :: 0 <= i < |places| ==> places[i] < |items| && kept[i] == items[places[i]])
    && (forall j :: 0 <= j < |items| ==> (j in places <==> !Goes(items[j], evidence)))
  }

  /** What goes: a claim that a visual is missing, or one that table data is
      missing which an existing index does not back; both only without a
      placeholder. */
  ghost predicate Goes<T>(item: Item<T>, evidence: map<string, TableIndex>) {
    && item.dictionary && !item.finding.placeholder
    && (item.visualMissing || (evidence != map[] && ClaimsMissingData(item.finding) && !Backed(item.finding, evidence)))
  }

  lemma {:induction false} TheRestIsKept<T>(items: seq<Item<T>>, evidence: map<string, TableIndex>)
    ensures KeepsOrder(items, KeptItems(items, evidence), KeptPlaces(items, evidence), evidence)
  {
    if items != [] {
      var n := |items| - 1;
      TheRestIsKept(items[..n], evidence);
      VerdictMeans(items[n].finding, evidence);
      var before, places := KeptPlaces(items[..n], evidence), KeptPlaces(items, evidence);
      forall j | 0 <= j < |items| ensures j in places <==> !Goes(items[j], evidence) {
        if j < n { assert items[..n][j] == items[j] && (j in before <==> !Goes(items[j], evidence)); }
        else { assert n !in before; }
      }
    }
  }

  /** An item that says nothing of missing data or visuals stays, whatever the
      index holds, and so does every item with a placeholder. */
  lemma OrdinaryItemsStay<T>(items: seq<Item<T>>, evidence: map<string, TableIndex>, j: nat)
    requires j < |items|
    requires items[j].finding.placeholder || (!items[j].visualMissing && !items[j].finding.dataMissing)
    ensures j in KeptPlaces(items, evidence)
  {
    TheRestIsKept(items, evidence);
  }

  /** A claim of missing data that names several tables, or none while it speaks
      of tables, goes. */
  lemma VagueClaimsGo<T>(items: seq<Item<T>>, evidence: map<string, TableIndex>, j: nat)
    requires j < |items| && items[j].dictionary && evidence != map[] && ClaimsMissingData(items[j].finding) && |items[j].finding.tables| != 1
    ensures j !in KeptPlaces(items, evidence)
  {
    TheRestIsKept(items, evidence);
    assert forall id :: items[j].finding.tables == {id} ==> |items[j].finding.tables| == 1;
  }

  // ---- the loops -------------------------------------------------------------------------------

  /** The loop over the cells a finding names. */
  method AnyUnsupported(names: set<string>, cells: map<string, Evidence>) returns (found: bool)
    ensures found <==> !AllSupport(names, cells)
  {
    var left := names;
    while left != {}
      invariant left <= names && forall name <- names - left :: Supports(name, names, cells)
      decreases |left|
    {
      var name :| name in left;
      if !Supports(name, names, cells) { return true; }
      left := left - {name};
    }
    found := false;
  }

  method IsUnsupported(f: Finding, evidence: map<string, TableIndex>) returns (verdict: bool)
    ensures verdict <==> Unsupported(f, evidence)
  {
    if evidence == map[] || f.placeholder || !f.dataMissing || (f.tables == {} && !f.speaksOfTables) { return false; }
    if |f.tables| != 1 { return true; }
    var table :| table in f.tables;
    OnlyTable(f.tables, table);
    if table !in evidence || evidence[table].confidence != "high" || f.cells == {} { return true; }
    verdict := AnyUnsupported(f.cells, evidence[table].cells);
  }

  lemma OnlyTable(tables: set<string>, table: string)
    requires |tables| == 1 && table in tables
    ensures tables == {table}
  {
    assert |tables - {table}| == 0;
  }

  /** `filter_unsupported_visual_missing_items` */
  method FilterItems<T>(items: seq<Item<T>>, evidence: map<string, TableIndex>) returns (kept: seq<Item<T>>, removed: nat)
    ensures kept == KeptItems(items, evidence) && removed == |items| - |kept|
    ensures KeepsOrder(items, kept, KeptPlaces(items, evidence), evidence)
  {
    TheRestIsKept(items, evidence);
    kept, removed := [], 0;
    var i := 0;
    while i < |items|
      invariant 0 <= i <= |items| && kept == KeptItems(items[..i], evidence) && removed == i - |kept|
    {
      assert items[..i + 1][..i] == items[..i];
      var unsupported := false;
      if items[i].dictionary && !UnsupportedVisual(items[i]) { unsupported := IsUnsupported(items[i].finding, evidence); }
      if items[i].dictionary && (UnsupportedVisual(items[i]) || unsupported) {
        removed := removed + 1;
      } else {
        kept := kept + [items[i]];
      }
      i := i + 1;
    }
    assert items[..i] == items;
  }
}
