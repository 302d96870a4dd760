/** tax/taxingJurisdictions.go: the taxing jurisdictions, one entry per data
    row of the tables of class tableData directly under
    #taxingJurisdictionDetails. */
module TaxJurisdictions {
  import opened GoStrings
  import opened Html
  import opened TaxNulls
  import opened Seqs
  import Pgdb

  datatype TaxingJurisdiction = TaxingJurisdiction(
    entity: string,
    description: string,
    taxRate: string,
    appraisedValue: string,
    taxableValue: string,
    estimatedTax: string)

  const EmptyJurisdiction := TaxingJurisdiction("", "", "", "", "", "")

  const JurisdictionsID := "taxingJurisdictionDetails"
  const JurisdictionsClass := "tableData"

  /** The tables the selector "#taxingJurisdictionDetails > table.tableData" matches. */
  function JurisdictionTables(doc: Document): seq<Table> {
    ChildTablesWithClass(doc.tables, JurisdictionsID, JurisdictionsClass)
  }

  /** The entry a row's td cells describe: cell i, trimmed, is the i-th
      field (Entity, Description, TaxRate, AppraisedValue, TaxableValue,
      EstimatedTax); cells from index 6 on are ignored. */
  function JurisdictionOf(cells: seq<string>): TaxingJurisdiction {
    TaxingJurisdiction(TrimmedAt(cells, 0), TrimmedAt(cells, 1), TrimmedAt(cells, 2),
      TrimmedAt(cells, 3), TrimmedAt(cells, 4), TrimmedAt(cells, 5))
  }

  /** What one row contributes: its entry, when its Entity is present. */
  function RowJurisdictions(row: Row): seq<TaxingJurisdiction> {
    var tj := JurisdictionOf(TdTexts(row));
    if tj.entity != "" then [tj] else []
  }

  function TableJurisdictions(table: Table): seq<TaxingJurisdiction> {
    ConcatMap(table.rows, RowJurisdictions)
  }

  /** What getTaxingJurisdictions extracts: the selected tables' entries,
      in table order then row order. */
  function Jurisdictions(doc: Document): seq<TaxingJurisdiction> {
    ConcatMap(JurisdictionTables(doc), TableJurisdictions)
  }

  /** getTaxingJurisdictions: for every selected table and every row in it,
      a fresh record filled cell by cell and kept when its Entity is
      non-empty. */
  method GetTaxingJurisdictions(doc: Document) returns (taxingJurisdictions: seq<TaxingJurisdiction>)
    ensures taxingJurisdictions == Jurisdictions(doc)
  {
    var tables := JurisdictionTables(doc);
    taxingJurisdictions := [];
    var t := 0;
    while t < |tables|
      invariant 0 <= t <= |tables|
      invariant taxingJurisdictions == ConcatMap(tables[..t], TableJurisdictions)
    {
      taxingJurisdictions := AppendRows(taxingJurisdictions, tables[t].rows);
      ConcatMapPrefixStep(tables, t, TableJurisdictions);
      t := t + 1;
    }
    assert tables[..t] == tables;
  }

  /** The per-table callback: appends the entry of every row that has an Entity. */
  method AppendRows(acc: seq<TaxingJurisdiction>, rows: seq<Row>) returns (taxingJurisdictions: seq<TaxingJurisdiction>)
    ensures taxingJurisdictions == acc + ConcatMap(rows, RowJurisdictions)
  {
    taxingJurisdictions := acc;
    var r := 0;
    while r < |rows|
      invariant 0 <= r <= |rows|
      invariant taxingJurisdictions == acc + ConcatMap(rows[..r], RowJurisdictions)
    {
      var taxJur := FillJurisdiction(TdTexts(rows[r]));
      ghost var before := taxingJurisdictions;
      if taxJur.entity != "" {
        taxingJurisdictions := taxingJurisdictions + [taxJur];
      }
      assert taxingJurisdictions == before + RowJurisdictions(rows[r]);
      ConcatMapPrefixStep(rows, r, RowJurisdictions);
      assert acc + ConcatMap(rows[..r + 1], RowJurisdictions) == before + RowJurisdictions(rows[r]);
      r := r + 1;
    }
    assert rows[..r] == rows;
  }

  /** The per-row callback: a fresh record whose field i is set from td
      cell i, for i in 0..5. */
  method FillJurisdiction(cells: seq<string>) returns (taxJur: TaxingJurisdiction)
    ensures taxJur == JurisdictionOf(cells)
  {
    taxJur := EmptyJurisdiction;
    var c := 0;
    while c < |cells|
      invariant 0 <= c <= |cells|
      invariant taxJur == JurisdictionOf(cells[..c])
    {
      TrimmedAtNext(cells, c);
      var text := TrimSpace(cells[c]);
      match c {
        case 0 => taxJur := taxJur.(entity := text);
        case 1 => taxJur := taxJur.(description := text);
        case 2 => taxJur := taxJur.(taxRate := text);
        case 3 => taxJur := taxJur.(appraisedValue := text);
        case 4 => taxJur := taxJur.(taxableValue := text);
        case 5 => taxJur := taxJur.(estimatedTax := text);
        case _ =>
      }
      c := c + 1;
    }
    assert cells[..c] == cells;
  }

  /** `row` yields the entry `x`: its td cells describe `x`, and `x` has an Entity. */
  predicate YieldsJurisdiction(row: Row, x: TaxingJurisdiction) {
    x == JurisdictionOf(TdTexts(row)) && x.entity != ""
  }

  /** An entry is extracted exactly when some row of a tableData table
      under #taxingJurisdictionDetails describes it and has an Entity. */
  lemma JurisdictionsMembership(doc: Document, x: TaxingJurisdiction)
    ensures x in Jurisdictions(doc) <==>
      exists t, row :: t in doc.tables && t.parentID == JurisdictionsID && HasClass(t.classAttr, JurisdictionsClass)
        && row in t.rows && YieldsJurisdiction(row, x)
  {
    var tables := JurisdictionTables(doc);
    ConcatMapMembership(tables, TableJurisdictions, x);
    forall t | t in tables ensures x in TableJurisdictions(t) <==> exists row :: row in t.rows && YieldsJurisdiction(row, x) {
      ConcatMapMembership(t.rows, RowJurisdictions, x);
    }
  }

  /** A table that is not a tableData table under #taxingJurisdictionDetails
      contributes nothing, wherever it sits among the others. */
  lemma OtherTablesIgnored(doc: Document, a: seq<Table>, t: Table, b: seq<Table>)
    requires t.parentID != JurisdictionsID || !HasClass(t.classAttr, JurisdictionsClass)
    ensures Jurisdictions(doc.(tables := a + [t] + b)) == Jurisdictions(doc.(tables := a + b))
  {
    ChildTablesWithClassSkip(a, t, b, JurisdictionsID, JurisdictionsClass);
    assert JurisdictionTables(doc.(tables := a + [t] + b)) == JurisdictionTables(doc.(tables := a + b));
  }

  /** No carry-over between rows: two runs of rows yield what each yields,
      concatenated. */
  lemma RowsJurisdictionsAppend(a: seq<Row>, b: seq<Row>)
    ensures ConcatMap(a + b, RowJurisdictions) == ConcatMap(a, RowJurisdictions) + ConcatMap(b, RowJurisdictions)
  {
    ConcatMapAppend(a, b, RowJurisdictions);
  }

  /** At most one entry per row of the selected tables. */
  lemma JurisdictionsBound(doc: Document)
    ensures |Jurisdictions(doc)| <= |AllRows(JurisdictionTables(doc))|
  {
    var tables := JurisdictionTables(doc);
    forall t | t in tables ensures |TableJurisdictions(t)| <= |TableRows(t)| {
      ConcatMapLength(t.rows, RowJurisdictions);
    }
    ConcatMapMonotone(tables, TableJurisdictions, TableRows);
  }

  /** Cells past the sixth are ignored. */
  lemma JurisdictionIgnoresExtraCells(cells: seq<string>, more: seq<string>)
    requires |cells| >= 6
    ensures JurisdictionOf(cells + more) == JurisdictionOf(cells)
  {
    forall i: nat | i < 6 ensures TrimmedAt(cells + more, i) == TrimmedAt(cells, i) {
      assert (cells + more)[i] == cells[i];
    }
  }

  /** One stored jurisdiction row read back: NULL columns read as "". */
  function JurisdictionFromDB(t: Pgdb.Jurisdiction): TaxingJurisdiction {
    TaxingJurisdiction(NullStringToString(t.entity), NullStringToString(t.description),
      NullInt32ToString(t.taxRate), NullInt32ToString(t.appraisedValue),
      NullInt32ToString(t.taxableValue), NullInt32ToString(t.estimatedTax))
  }

  /** FromTaxingJurisdictionModel: converts every stored row, keeping count and order. */
  method FromTaxingJurisdictionModel(tj: seq<Pgdb.Jurisdiction>) returns (tjs: seq<TaxingJurisdiction>)
    ensures |tjs| == |tj|
    ensures forall i :: 0 <= i < |tjs| ==> tjs[i] == JurisdictionFromDB(tj[i])
  {
    tjs := [];
    var i := 0;
    while i < |tj|
      invariant 0 <= i <= |tj|
      invariant |tjs| == i
      invariant forall k :: 0 <= k < i ==> tjs[k] == JurisdictionFromDB(tj[k])
    {
      tjs := tjs + [JurisdictionFromDB(tj[i])];
      i := i + 1;
    }
  }

  /** The numeric columns read back as "" exactly when NULL; a NULL text
      column reads as "". */
  lemma JurisdictionFromDBNulls(t: Pgdb.Jurisdiction)
    ensures !t.entity.valid ==> JurisdictionFromDB(t).entity == ""
    ensures !t.description.valid ==> JurisdictionFromDB(t).description == ""
    ensures (JurisdictionFromDB(t).taxRate == "") == !t.taxRate.valid
    ensures (JurisdictionFromDB(t).appraisedValue == "") == !t.appraisedValue.valid
    ensures (JurisdictionFromDB(t).taxableValue == "") == !t.taxableValue.valid
    ensures (JurisdictionFromDB(t).estimatedTax == "") == !t.estimatedTax.valid
  {
  }
}
