/** The parsed page, reduced to what the extractors' selectors reach: the
    text under each header selector, and the document's tables in document
    order, each with the id of its parent element, its class attribute and
    its rows of header (th) and data (td) cells. */
module Html {
  import opened GoStrings
  import opened Seqs

  datatype CellTag = Th | Td

  datatype Cell = Cell(tag: CellTag, text: string)

  type Row = seq<Cell>

  datatype Table = Table(parentID: string, classAttr: string, rows: seq<Row>)

  /** `text(sel)` is what doc.Find(sel).Text() yields ("" when nothing
      matches); `buildingContainers` is how many elements carry the id
      improvementBuildingDetails. */
  datatype Document = Document(text: string -> string, tables: seq<Table>, buildingContainers: nat)

  /** row.Find("td"): the data cells' texts, in order. */
  function TdTexts(row: Row): (texts: seq<string>)
    ensures |texts| <= |row|
  {
    if row == [] then []
    else TdTexts(row[..|row| - 1]) + (if row[|row| - 1].tag == Td then [row[|row| - 1].text] else [])
  }

  /** row.Find("th,td"): every cell's text, in order. */
  function CellTexts(row: Row): (texts: seq<string>)
    ensures |texts| == |row|
  {
    seq(|row|, i requires 0 <= i < |row| => row[i].text)
  }

  /** The trimmed text of cell `i`, or "" when the row has no such cell. */
  function TrimmedAt(cells: seq<string>, i: nat): string {
    if i < |cells| then TrimSpace(cells[i]) else ""
  }

  /** Cell i, trimmed, when the row has one; otherwise the value kept (a
      field of a running record that the row does not overwrite). */
  function CellOr(cells: seq<string>, i: nat, kept: string): string {
    if i < |cells| then TrimmedAt(cells, i) else kept
  }

  /** "#<id> > table": the tables whose parent has that id, in order. */
  function ChildTables(tables: seq<Table>, id: string): (r: seq<Table>)
    ensures |r| <= |tables|
    ensures forall t :: t in r <==> t in tables && t.parentID == id
  {
    if tables == [] then []
    else
      var last := tables[|tables| - 1];
      ChildTables(tables[..|tables| - 1], id) + (if last.parentID == id then [last] else [])
  }

  /** "#<id> > table.<cls>": the tables whose parent has that id and whose
      class attribute lists that class, in order. */
  function ChildTablesWithClass(tables: seq<Table>, id: string, cls: string): (r: seq<Table>)
    ensures |r| <= |tables|
    ensures forall t :: t in r <==> t in tables && t.parentID == id && HasClass(t.classAttr, cls)
  {
    if tables == [] then []
    else
      var last := tables[|tables| - 1];
      ChildTablesWithClass(tables[..|tables| - 1], id, cls)
        + (if last.parentID == id && HasClass(last.classAttr, cls) then [last] else [])
  }

  /** The selector matches each stretch of tables on its own: matching a
      concatenation is matching each part, in order. */
  lemma {:induction false} ChildTablesWithClassAppend(a: seq<Table>, b: seq<Table>, id: string, cls: string)
    ensures ChildTablesWithClass(a + b, id, cls) == ChildTablesWithClass(a, id, cls) + ChildTablesWithClass(b, id, cls)
    decreases |b|
  {
    if b == [] {
      assert a + b == a;
    } else {
      var init := b[..|b| - 1];
      assert (a + b)[..|a + b| - 1] == a + init;
      assert (a + b)[|a + b| - 1] == b[|b| - 1];
      ChildTablesWithClassAppend(a, init, id, cls);
    }
  }

  /** A table the selector does not match can be dropped from anywhere in
      the list without changing what it matches. */
  lemma ChildTablesWithClassSkip(a: seq<Table>, t: Table, b: seq<Table>, id: string, cls: string)
    requires t.parentID != id || !HasClass(t.classAttr, cls)
    ensures ChildTablesWithClass(a + [t] + b, id, cls) == ChildTablesWithClass(a + b, id, cls)
  {
    assert ChildTablesWithClass([t], id, cls) == [] by {
      assert [t][..0] == [];
    }
    ChildTablesWithClassAppend(a, [t], id, cls);
    ChildTablesWithClassAppend(a + [t], b, id, cls);
    ChildTablesWithClassAppend(a, b, id, cls);
  }

  function TableRows(t: Table): seq<Row> {
    t.rows
  }

  /** Every row of the given tables, in table order then row order. */
  function AllRows(tables: seq<Table>): seq<Row> {
    ConcatMap(tables, TableRows)
  }

  /** Extending a row by its next cell changes only the trimmed text at
      that cell's position. */
  lemma TrimmedAtNext(cells: seq<string>, c: nat)
    requires c < |cells|
    ensures forall i :: TrimmedAt(cells[..c + 1], i) == if i == c then TrimSpace(cells[c]) else TrimmedAt(cells[..c], i)
  {
    forall i: nat
      ensures TrimmedAt(cells[..c + 1], i) == if i == c then TrimSpace(cells[c]) else TrimmedAt(cells[..c], i)
    {
      if i < c {
        assert cells[..c + 1][i] == cells[..c][i];
      }
    }
  }
}
