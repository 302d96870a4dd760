/** tax/land.go: the land segments. Unlike the other row extractors, one
    running record is kept per table: each row overwrites the fields it has
    cells for, and the record is appended after every row while its Number
    is set. */
module TaxLand {
  import opened GoStrings
  import opened Html
  import opened TaxNulls
  import opened Seqs
  import Sql
  import Pgdb

  datatype Land = Land(
    number: string,
    landType: string,
    description: string,
    acres: string,
    sqft: string,
    effFront: string,
    effDepth: string,
    marketValue: string)

  const EmptyLand := Land("", "", "", "", "", "", "", "")

  const LandID := "landDetails"

  /** One row's td cells written over the running record. */
  function Overwrite(land: Land, cells: seq<string>): Land {
    Land(CellOr(cells, 0, land.number), CellOr(cells, 1, land.landType), CellOr(cells, 2, land.description),
      CellOr(cells, 3, land.acres), CellOr(cells, 4, land.sqft), CellOr(cells, 5, land.effFront),
      CellOr(cells, 6, land.effDepth), CellOr(cells, 7, land.marketValue))
  }

  /** The running record after the given rows of one table. */
  function LandAfter(rows: seq<Row>): Land {
    if rows == [] then EmptyLand else Overwrite(LandAfter(rows[..|rows| - 1]), TdTexts(rows[|rows| - 1]))
  }

  /** What one table contributes: after each row, the running record when
      its Number is set. */
  function TableLands(rows: seq<Row>): seq<Land> {
    if rows == [] then []
    else
      var land := LandAfter(rows);
      TableLands(rows[..|rows| - 1]) + (if land.number != "" then [land] else [])
  }

  function TableLandsOf(t: Table): seq<Land> {
    TableLands(t.rows)
  }

  /** What getLandInfo extracts: the land tables' entries, in table order. */
  function Lands(doc: Document): seq<Land> {
    ConcatMap(ChildTables(doc.tables, LandID), TableLandsOf)
  }

  /** getLandInfo. */
  method GetLandInfo(doc: Document) returns (lands: seq<Land>)
    ensures lands == Lands(doc)
  {
    var tables := ChildTables(doc.tables, LandID);
    lands := [];
    var t := 0;
    while t < |tables|
      invariant 0 <= t <= |tables|
      invariant lands == ConcatMap(tables[..t], TableLandsOf)
    {
      lands := AppendTable(lands, tables[t].rows);
      ConcatMapPrefixStep(tables, t, TableLandsOf);
      t := t + 1;
    }
    assert tables[..t] == tables;
  }

  /** The per-table callback: a running record starts empty, every row
      writes its cells over it, and it is appended after each row while its
      Number is set. */
  method AppendTable(acc: seq<Land>, rows: seq<Row>) returns (lands: seq<Land>)
    ensures lands == acc + TableLands(rows)
  {
    lands := acc;
    var land := EmptyLand;
    var r := 0;
    while r < |rows|
      invariant 0 <= r <= |rows|
      invariant land == LandAfter(rows[..r])
      invariant lands == acc + TableLands(rows[..r])
    {
      land, lands := VisitLandRow(rows, r, land, lands, acc);
      r := r + 1;
    }
    assert rows[..r] == rows;
  }

  /** The per-row callback: the row's td cells are written over the running
      record, which is then appended when its Number is set. */
  method VisitLandRow(rows: seq<Row>, r: nat, land0: Land, lands0: seq<Land>, ghost acc: seq<Land>)
    returns (land: Land, lands: seq<Land>)
    requires r < |rows| && land0 == LandAfter(rows[..r]) && lands0 == acc + TableLands(rows[..r])
    ensures land == LandAfter(rows[..r + 1]) && lands == acc + TableLands(rows[..r + 1])
  {
    LandStep(rows, r);
    land := FillLand(land0, TdTexts(rows[r]));
    lands := lands0;
    if land.number != "" {
      lands := lands + [land];
    }
    AppendAssoc(acc, TableLands(rows[..r]), if land.number != "" then [land] else []);
  }

  /** The loop step of the per-table callback: row r is written over the
      running record, which is then appended when its Number is set. */
  lemma LandStep(rows: seq<Row>, r: nat)
    requires r < |rows|
    ensures LandAfter(rows[..r + 1]) == Overwrite(LandAfter(rows[..r]), TdTexts(rows[r]))
    ensures TableLands(rows[..r + 1]) == TableLands(rows[..r]) +
      (if LandAfter(rows[..r + 1]).number != "" then [LandAfter(rows[..r + 1])] else [])
  {
    assert rows[..r + 1][..r] == rows[..r];
  }

  /** The per-row callback: td cell i, trimmed, overwrites field i, for i
      in 0..7; the other fields keep their values. */
  method FillLand(land0: Land, cells: seq<string>) returns (land: Land)
    ensures land == Overwrite(land0, cells)
  {
    land := land0;
    var c := 0;
    while c < |cells|
      invariant 0 <= c <= |cells|
      invariant land == Overwrite(land0, cells[..c])
    {
      TrimmedAtNext(cells, c);
      var text := TrimSpace(cells[c]);
      match c {
        case 0 => land := land.(number := text);
        case 1 => land := land.(landType := text);
        case 2 => land := land.(description := text);
        case 3 => land := land.(acres := text);
        case 4 => land := land.(sqft := text);
        case 5 => land := land.(effFront := text);
        case 6 => land := land.(effDepth := text);
        case 7 => land := land.(marketValue := text);
        case _ =>
      }
      c := c + 1;
    }
    assert cells[..c] == cells;
  }

  /** The trimmed td cell i of the last row that has one, or "" when no row
      does. */
  function LastCellAt(rows: seq<Row>, i: nat): string {
    if rows == [] then ""
    else
      var cells := TdTexts(rows[|rows| - 1]);
      if i < |cells| then TrimSpace(cells[i]) else LastCellAt(rows[..|rows| - 1], i)
  }

  /** The record each field of which is the trimmed td cell of the last
      row that had one at that position, or "". */
  function LastCells(rows: seq<Row>): Land {
    Land(LastCellAt(rows, 0), LastCellAt(rows, 1), LastCellAt(rows, 2), LastCellAt(rows, 3),
      LastCellAt(rows, 4), LastCellAt(rows, 5), LastCellAt(rows, 6), LastCellAt(rows, 7))
  }

  /** Last write wins: after any rows of a table, the running record is the
      record of last cells; no field is reset by a row that lacks its cell. */
  lemma {:induction false} LandIsLastCells(rows: seq<Row>)
    ensures LandAfter(rows) == LastCells(rows)
  {
    if rows != [] {
      LandIsLastCells(rows[..|rows| - 1]);
    }
  }

  /** Carry-over: a row without td cells, after a row that left a Number,
      appends the previous entry once more. */
  lemma CellLessRowRepeats(rows: seq<Row>, row: Row)
    requires LandAfter(rows).number != ""
    requires TdTexts(row) == []
    ensures TableLands(rows + [row]) == TableLands(rows) + [LandAfter(rows)]
  {
    var rows' := rows + [row];
    assert rows'[..|rows'| - 1] == rows;
    assert LandAfter(rows') == LandAfter(rows);
  }

  /** Every entry has a Number. */
  lemma {:induction false} TableLandsHaveNumber(rows: seq<Row>)
    ensures forall x :: x in TableLands(rows) ==> x.number != ""
  {
    if rows != [] {
      TableLandsHaveNumber(rows[..|rows| - 1]);
    }
  }

  /** At most one entry per row. */
  lemma {:induction false} TableLandsBound(rows: seq<Row>)
    ensures |TableLands(rows)| <= |rows|
  {
    if rows != [] {
      TableLandsBound(rows[..|rows| - 1]);
    }
  }

  /** The running record starts over with every table: what two runs of
      tables yield is what each yields on its own, concatenated. */
  lemma LandsPerTable(a: seq<Table>, b: seq<Table>)
    ensures ConcatMap(a + b, TableLandsOf) == ConcatMap(a, TableLandsOf) + ConcatMap(b, TableLandsOf)
  {
    ConcatMapAppend(a, b, TableLandsOf);
  }

  /** At most one entry per row of the land tables. */
  lemma LandsBound(doc: Document)
    ensures |Lands(doc)| <= |AllRows(ChildTables(doc.tables, LandID))|
  {
    var tables := ChildTables(doc.tables, LandID);
    forall t | t in tables ensures |TableLandsOf(t)| <= |TableRows(t)| {
      TableLandsBound(t.rows);
    }
    ConcatMapMonotone(tables, TableLandsOf, TableRows);
  }

  /** One more row: the running record is overwritten by the row's cells,
      then appended when its Number is set. */
  lemma TableLandsSnoc(rows: seq<Row>, row: Row)
    ensures LandAfter(rows + [row]) == Overwrite(LandAfter(rows), TdTexts(row))
    ensures TableLands(rows + [row]) == TableLands(rows)
      + (if LandAfter(rows + [row]).number != "" then [LandAfter(rows + [row])] else [])
  {
    assert (rows + [row])[..|rows|] == rows;
  }

  /** A one-row table with Number and Type yields that one entry. */
  lemma OneRowTable(n1: string, t1: string)
    requires TrimSpace(n1) != []
    ensures LandAfter([[Cell(Td, n1), Cell(Td, t1)]]) == Land(TrimSpace(n1), TrimSpace(t1), "", "", "", "", "", "")
    ensures TableLands([[Cell(Td, n1), Cell(Td, t1)]]) == [Land(TrimSpace(n1), TrimSpace(t1), "", "", "", "", "", "")]
  {
    var r1: Row := [Cell(Td, n1), Cell(Td, t1)];
    assert TdTexts(r1) == [n1, t1] by {
      assert r1[..1] == [Cell(Td, n1)];
      assert r1[..1][..0] == [];
    }
    assert [] + [r1] == [r1];
    TableLandsSnoc([], r1);
    OverwriteTwoCells(n1, t1);
  }

  lemma OverwriteTwoCells(n1: string, t1: string)
    ensures Overwrite(EmptyLand, [n1, t1]) == Land(TrimSpace(n1), TrimSpace(t1), "", "", "", "", "", "")
  {
  }

  /** Carry-over in a two-row table: a row with Number and Type, then a row
      with only a Number, yields two entries, the second keeping the first
      row's Type. */
  lemma CarryOverTwoRows(n1: string, t1: string, n2: string)
    requires TrimSpace(n1) != [] && TrimSpace(n2) != []
    ensures TableLands([[Cell(Td, n1), Cell(Td, t1)], [Cell(Td, n2)]])
      == [Land(TrimSpace(n1), TrimSpace(t1), "", "", "", "", "", ""),
          Land(TrimSpace(n2), TrimSpace(t1), "", "", "", "", "", "")]
  {
    var r1: Row := [Cell(Td, n1), Cell(Td, t1)];
    var r2: Row := [Cell(Td, n2)];
    var first := Land(TrimSpace(n1), TrimSpace(t1), "", "", "", "", "", "");
    OneRowTable(n1, t1);
    assert TdTexts(r2) == [n2] by {
      assert r2[..0] == [];
    }
    TableLandsSnoc([r1], r2);
    OverwriteOneCell(first, n2);
    PairOfSingletons(r1, r2);
    var second := first.(number := TrimSpace(n2));
    assert LandAfter([r1, r2]) == second;
    PairOfSingletons(first, second);
  }

  lemma OverwriteOneCell(land: Land, n: string)
    ensures Overwrite(land, [n]) == land.(number := TrimSpace(n))
  {
  }

  /** One stored land row read back: NULL columns read as "". */
  function LandFromDB(l: Pgdb.Land): Land {
    Land(NullInt32ToString(l.number), NullStringToString(l.landType), NullStringToString(l.description),
      NullFloat64ToString(l.acres), NullFloat64ToString(l.squareFeet), NullFloat64ToString(l.effFront),
      NullFloat64ToString(l.effDepth), NullInt32ToString(l.marketValue))
  }

  /** FromLandDBModel: converts every stored row, keeping count and order. */
  method FromLandDBModel(land: seq<Pgdb.Land>) returns (ll: seq<Land>)
    ensures |ll| == |land|
    ensures forall i :: 0 <= i < |ll| ==> ll[i] == LandFromDB(land[i])
  {
    ll := [];
    var i := 0;
    while i < |land|
      invariant 0 <= i <= |land|
      invariant |ll| == i
      invariant forall k :: 0 <= k < i ==> ll[k] == LandFromDB(land[k])
    {
      ll := ll + [LandFromDB(land[i])];
      i := i + 1;
    }
  }

  /** NULL columns read back as ""; the numeric ones read "" only when NULL. */
  lemma LandFromDBNulls(l: Pgdb.Land)
    ensures (LandFromDB(l).number == "") == !l.number.valid
    ensures (LandFromDB(l).marketValue == "") == !l.marketValue.valid
    ensures !l.landType.valid ==> LandFromDB(l).landType == ""
    ensures !l.description.valid ==> LandFromDB(l).description == ""
    ensures !l.acres.valid ==> LandFromDB(l).acres == ""
    ensures !l.squareFeet.valid ==> LandFromDB(l).sqft == ""
    ensures !l.effFront.valid ==> LandFromDB(l).effFront == ""
    ensures !l.effDepth.valid ==> LandFromDB(l).effDepth == ""
  {
  }
}
