/** tax/rollValue.go: the roll value history, one entry per data row of the
    tables directly under #rollHistoryDetails. */
module TaxRollValue {
  import opened GoStrings
  import opened Sql
  import opened Html
  import opened TaxNulls
  import opened Seqs
  import Pgdb

  datatype RollValue = RollValue(
    year: string,
    improvements: string,
    landMarket: string,
    agValuation: string,
    appraised: string,
    homesteadCap: string,
    assessed: string)

  const EmptyRollValue := RollValue("", "", "", "", "", "", "")

  const RollHistoryID := "rollHistoryDetails"

  /** The entry a row's td cells describe: cell i, trimmed, is the i-th
      field (Year, Improvements, LandMarket, AgValuation, Appraised,
      HomesteadCap, Assessed); cells from index 7 on are ignored. */
  function RollValueOf(cells: seq<string>): RollValue {
    RollValue(TrimmedAt(cells, 0), TrimmedAt(cells, 1), TrimmedAt(cells, 2), TrimmedAt(cells, 3),
      TrimmedAt(cells, 4), TrimmedAt(cells, 5), TrimmedAt(cells, 6))
  }

  /** What one row contributes: its entry, when its Year is present. */
  function RowRollValues(row: Row): seq<RollValue> {
    var rv := RollValueOf(TdTexts(row));
    if rv.year != "" then [rv] else []
  }

  /** What one table contributes: its rows' entries, in row order. */
  function TableRollValues(table: Table): seq<RollValue> {
    ConcatMap(table.rows, RowRollValues)
  }

  /** What getRollValue extracts from a document: the tables' entries, in
      table order. */
  function RollValues(doc: Document): seq<RollValue> {
    ConcatMap(ChildTables(doc.tables, RollHistoryID), TableRollValues)
  }

  /** getRollValue: for every table under #rollHistoryDetails and every row
      in it, a fresh record filled cell by cell and kept when its Year is
      non-empty. */
  method GetRollValue(doc: Document) returns (rollValues: seq<RollValue>)
    ensures rollValues == RollValues(doc)
  {
    var tables := ChildTables(doc.tables, RollHistoryID);
    rollValues := [];
    var t := 0;
    while t < |tables|
      invariant 0 <= t <= |tables|
      invariant rollValues == ConcatMap(tables[..t], TableRollValues)
    {
      rollValues := AppendRows(rollValues, tables[t].rows);
      ConcatMapPrefixStep(tables, t, TableRollValues);
      t := t + 1;
    }
    assert tables[..t] == tables;
  }

  /** The per-table callback: appends the entry of every row that has a Year. */
  method AppendRows(acc: seq<RollValue>, rows: seq<Row>) returns (rollValues: seq<RollValue>)
    ensures rollValues == acc + ConcatMap(rows, RowRollValues)
  {
    rollValues := acc;
    var r := 0;
    while r < |rows|
      invariant 0 <= r <= |rows|
      invariant rollValues == acc + ConcatMap(rows[..r], RowRollValues)
    {
      var rollValue := FillRollValue(TdTexts(rows[r]));
      ghost var before := rollValues;
      if rollValue.year != "" {
        rollValues := rollValues + [rollValue];
      }
      assert rollValues == before + RowRollValues(rows[r]);
      ConcatMapPrefixStep(rows, r, RowRollValues);
      assert acc + ConcatMap(rows[..r + 1], RowRollValues) == before + RowRollValues(rows[r]);
      r := r + 1;
    }
    assert rows[..r] == rows;
  }

  /** The per-row callback: a fresh record whose field i is set from td
      cell i, for i in 0..6. */
  method FillRollValue(cells: seq<string>) returns (rollValue: RollValue)
    ensures rollValue == RollValueOf(cells)
  {
    rollValue := EmptyRollValue;
    var c := 0;
    while c < |cells|
      invariant 0 <= c <= |cells|
      invariant rollValue == RollValueOf(cells[..c])
    {
      TrimmedAtNext(cells, c);
      var text := TrimSpace(cells[c]);
      match c {
        case 0 => rollValue := rollValue.(year := text);
        case 1 => rollValue := rollValue.(improvements := text);
        case 2 => rollValue := rollValue.(landMarket := text);
        case 3 => rollValue := rollValue.(agValuation := text);
        case 4 => rollValue := rollValue.(appraised := text);
        case 5 => rollValue := rollValue.(homesteadCap := text);
        case 6 => rollValue := rollValue.(assessed := text);
        case _ =>
      }
      c := c + 1;
    }
    assert cells[..c] == cells;
  }

  /** `row` yields the entry `x`: its td cells describe `x`, and `x` has a Year. */
  predicate YieldsRollValue(row: Row, x: RollValue) {
    x == RollValueOf(TdTexts(row)) && x.year != ""
  }

  /** An entry is extracted exactly when some row of some roll history table
      describes it and has a Year. */
  lemma RollValuesMembership(doc: Document, x: RollValue)
    ensures x in RollValues(doc) <==>
      exists t, row :: t in ChildTables(doc.tables, RollHistoryID) && row in t.rows && YieldsRollValue(row, x)
  {
    var tables := ChildTables(doc.tables, RollHistoryID);
    ConcatMapMembership(tables, TableRollValues, x);
    if x in RollValues(doc) {
      var t :| t in tables && x in TableRollValues(t);
      TableRollValuesMembership(t, x);
      var row :| row in t.rows && YieldsRollValue(row, x);
    }
    if exists t, row :: t in tables && row in t.rows && YieldsRollValue(row, x) {
      var t, row :| t in tables && row in t.rows && YieldsRollValue(row, x);
      TableRollValuesMembership(t, x);
    }
  }

  /** Within one table: an entry is read exactly when one of its rows
      describes it and has a Year. */
  lemma TableRollValuesMembership(t: Table, x: RollValue)
    ensures x in TableRollValues(t) <==> exists row :: row in t.rows && YieldsRollValue(row, x)
  {
    ConcatMapMembership(t.rows, RowRollValues, x);
  }

  /** No carry-over between rows: the entries of two runs of rows are the
      entries of each run, concatenated; with RowRollValues this pins down
      every entry to its own row, in row order. */
  lemma RowsRollValuesAppend(a: seq<Row>, b: seq<Row>)
    ensures ConcatMap(a + b, RowRollValues) == ConcatMap(a, RowRollValues) + ConcatMap(b, RowRollValues)
  {
    ConcatMapAppend(a, b, RowRollValues);
  }

  /** At most one entry per row of the roll history tables. */
  lemma RollValuesBound(doc: Document)
    ensures |RollValues(doc)| <= |AllRows(ChildTables(doc.tables, RollHistoryID))|
  {
    var tables := ChildTables(doc.tables, RollHistoryID);
    forall t | t in tables ensures |TableRollValues(t)| <= |TableRows(t)| {
      ConcatMapLength(t.rows, RowRollValues);
    }
    ConcatMapMonotone(tables, TableRollValues, TableRows);
  }

  /** Every extracted entry has a Year. */
  lemma RollValuesHaveYear(doc: Document)
    ensures forall x :: x in RollValues(doc) ==> x.year != ""
  {
    forall x | x in RollValues(doc) ensures x.year != "" {
      RollValuesMembership(doc, x);
    }
  }

  /** Cells past the seventh are ignored. */
  lemma RollValueIgnoresExtraCells(cells: seq<string>, more: seq<string>)
    requires |cells| >= 7
    ensures RollValueOf(cells + more) == RollValueOf(cells)
  {
    forall i: nat | i < 7 ensures TrimmedAt(cells + more, i) == TrimmedAt(cells, i) {
      assert (cells + more)[i] == cells[i];
    }
  }

  /** One stored roll value row read back: NULL columns read as "". */
  function RollValueFromDB(r: Pgdb.RollValue): RollValue {
    RollValue(NullInt32ToString(r.year), NullInt32ToString(r.improvements), NullInt32ToString(r.landMarket),
      NullInt32ToString(r.agValuation), NullInt32ToString(r.appraised), NullInt32ToString(r.homesteadCap),
      NullInt32ToString(r.assessed))
  }

  /** A column reads back as "" exactly when it is NULL. */
  lemma RollValueFromDBNulls(r: Pgdb.RollValue)
    ensures (RollValueFromDB(r).year == "") == !r.year.valid
    ensures (RollValueFromDB(r).improvements == "") == !r.improvements.valid
    ensures (RollValueFromDB(r).landMarket == "") == !r.landMarket.valid
    ensures (RollValueFromDB(r).agValuation == "") == !r.agValuation.valid
    ensures (RollValueFromDB(r).appraised == "") == !r.appraised.valid
    ensures (RollValueFromDB(r).homesteadCap == "") == !r.homesteadCap.valid
    ensures (RollValueFromDB(r).assessed == "") == !r.assessed.valid
  {
  }

  /** FromRollValueDBModel: converts every stored row, keeping count and order. */
  method FromRollValueDBModel(rollValue: seq<Pgdb.RollValue>) returns (rv: seq<RollValue>)
    ensures |rv| == |rollValue|
    ensures forall i :: 0 <= i < |rv| ==> rv[i] == RollValueFromDB(rollValue[i])
  {
    rv := [];
    var i := 0;
    while i < |rollValue|
      invariant 0 <= i <= |rollValue|
      invariant |rv| == i
      invariant forall k :: 0 <= k < i ==> rv[k] == RollValueFromDB(rollValue[k])
    {
      rv := rv + [RollValueFromDB(rollValue[i])];
      i := i + 1;
    }
  }
}
