/** tax/improvements.go: the improvements (buildings) and their detail
    rows. getImprovements walks every table of the document once per
    #improvementBuildingDetails element, keeping one current improvement
    across all tables and passes. */
module TaxImprovements {
  import opened GoStrings
  import opened GoStrconv
  import opened Html
  import opened TaxNulls
  import opened Seqs
  import Pgdb

  datatype ImprovDetail = ImprovDetail(
    improvementType: string,
    description: string,
    detailClass: string,
    exteriorWall: string,
    yearBuilt: string,
    sqFt: string)

  datatype Improvement = Improvement(
    name: string,
    description: string,
    stateCode: string,
    livingArea: string,
    value: string,
    details: seq<ImprovDetail>)

  const EmptyImprovement := Improvement("", "", "", "", "", [])
  const EmptyDetail := ImprovDetail("", "", "", "", "", "")

  const ImprovementsClass := "improvements"
  const DetailsClass := "improvementDetails"

  /** An area cell: the first " sqft" removed, then trimmed. */
  function AreaText(s: string): string {
    TrimSpace(ReplaceOnce(s, " sqft", ""))
  }

  /** A value cell: the first "$" removed, then every ",", then trimmed. */
  function ValueText(s: string): string {
    TrimSpace(ReplaceAll(ReplaceOnce(s, "$", ""), ",", ""))
  }

  function AreaOr(cells: seq<string>, i: nat, kept: string): string {
    if i < |cells| then AreaText(cells[i]) else kept
  }

  function ValueOr(cells: seq<string>, i: nat, kept: string): string {
    if i < |cells| then ValueText(cells[i]) else kept
  }

  // ---------------------------------------------------------------- getImprovement

  /** One row's th and td cells written over the running improvement: cell
      0 is the Name, 1 the Description, 3 the StateCode, 5 the LivingArea
      and 7 the Value; cells 2, 4, 6 and from 8 on are ignored. */
  function OverwriteImprovement(imp: Improvement, cells: seq<string>): Improvement {
    imp.(name := CellOr(cells, 0, imp.name), description := CellOr(cells, 1, imp.description),
      stateCode := CellOr(cells, 3, imp.stateCode), livingArea := AreaOr(cells, 5, imp.livingArea),
      value := ValueOr(cells, 7, imp.value))
  }

  /** What getImprovement reads from the rows of an "improvements" table. */
  function ImprovementOf(rows: seq<Row>): Improvement {
    if rows == [] then EmptyImprovement
    else OverwriteImprovement(ImprovementOf(rows[..|rows| - 1]), CellTexts(rows[|rows| - 1]))
  }

  /** getImprovement: one record, every row writing the cells it has over it. */
  method GetImprovement(rows: seq<Row>) returns (improvement: Improvement)
    ensures improvement == ImprovementOf(rows)
  {
    improvement := EmptyImprovement;
    var r := 0;
    while r < |rows|
      invariant 0 <= r <= |rows|
      invariant improvement == ImprovementOf(rows[..r])
    {
      assert rows[..r + 1][..r] == rows[..r];
      improvement := FillImprovement(improvement, CellTexts(rows[r]));
      r := r + 1;
    }
    assert rows[..r] == rows;
  }

  /** The per-row callback of getImprovement. */
  method FillImprovement(imp0: Improvement, cells: seq<string>) returns (improvement: Improvement)
    ensures improvement == OverwriteImprovement(imp0, cells)
  {
    improvement := imp0;
    var c := 0;
    while c < |cells|
      invariant 0 <= c <= |cells|
      invariant improvement == OverwriteImprovement(imp0, cells[..c])
    {
      TrimmedAtNext(cells, c);
      assert cells[..c + 1][c] == cells[c];
      match c {
        case 0 => improvement := improvement.(name := TrimSpace(cells[c]));
        case 1 => improvement := improvement.(description := TrimSpace(cells[c]));
        case 3 => improvement := improvement.(stateCode := TrimSpace(cells[c]));
        case 5 => improvement := improvement.(livingArea := AreaText(cells[c]));
        case 7 => improvement := improvement.(value := ValueText(cells[c]));
        case _ =>
      }
      c := c + 1;
    }
    assert cells[..c] == cells;
  }

  /** The trimmed cell i of the last row that has one, cleaned as field i
      is (area for 5, value for 7), or "" when no row has one. */
  function LastCleaned(rows: seq<Row>, i: nat): string {
    if rows == [] then ""
    else
      var cells := CellTexts(rows[|rows| - 1]);
      if i < |cells| then (if i == 5 then AreaText(cells[i]) else if i == 7 then ValueText(cells[i]) else TrimSpace(cells[i]))
      else LastCleaned(rows[..|rows| - 1], i)
  }

  /** Last write wins: each field of an improvement is its cell in the last
      row that has one, and no improvement read from a table has details. */
  lemma {:induction false} ImprovementIsLastCells(rows: seq<Row>)
    ensures ImprovementOf(rows) == Improvement(LastCleaned(rows, 0), LastCleaned(rows, 1), LastCleaned(rows, 3),
      LastCleaned(rows, 5), LastCleaned(rows, 7), [])
  {
    if rows != [] {
      ImprovementIsLastCells(rows[..|rows| - 1]);
    }
  }

  /** A dollar amount: the leading "$" goes, and so does every ",". */
  lemma DollarAmount(s: string)
    ensures ValueText("$" + s) == TrimSpace(Without(s, ','))
  {
    assert OccursAt("$" + s, "$", 0);
    assert ("$" + s)[1..] == s;
    ReplaceAllDeletesChar(s, ',');
  }

  /** A dollar amount with a thousands separator, such as "$123,456",
      reads as its digits, "123456". */
  lemma ThousandsSeparator(a: string, b: string)
    requires AllDigits(a) && AllDigits(b) && a + b != []
    ensures ValueText("$" + a + "," + b) == a + b
  {
    var amount := a + [','] + b;
    assert "$" + a + "," + b == "$" + amount;
    DollarAmount(amount);
    DigitsJoined(a, b);
  }

  lemma DigitsJoined(a: string, b: string)
    requires AllDigits(a) && AllDigits(b) && a + b != []
    ensures Without(a + [','] + b, ',') == a + b
    ensures TrimSpace(a + b) == a + b
  {
    assert forall k :: 0 <= k < |a| ==> a[k] != ',';
    assert forall k :: 0 <= k < |b| ==> b[k] != ',';
    SeparatorDropped(a, b, ',');
    var r := a + b;
    assert IsDigit(r[0]) && IsDigit(r[|r| - 1]);
    NoEdgeSpaceIsTrimmed(r);
  }

  /** An area written with its unit, such as "1,234 sqft", reads as the
      number alone, "1,234". */
  lemma AreaWithUnit(a: string)
    requires forall k :: 0 <= k < |a| ==> !IsSpace(a[k])
    ensures AreaText(a + " sqft") == a
  {
    var s := a + " sqft";
    forall j | 0 <= j < |a| ensures !OccursAt(s, " sqft", j) {
      assert s[j] == a[j];
    }
    assert OccursAt(s, " sqft", |a|);
    assert s[..|a|] == a && s[|a| + 5..] == [];
    NoEdgeSpaceIsTrimmed(a);
  }

  /** A value keeps no comma at all, and loses only a leading "$" when the
      rest has no "$". */
  lemma ValueDropsCommas(s: string)
    ensures ',' !in ValueText(s)
  {
    var t := ReplaceOnce(s, "$", "");
    ReplaceAllDeletesChar(t, ',');
    var u := Without(t, ',');
    var r := TrimSpace(u);
    assert r == u[LeadingSpaces(u)..LeadingSpaces(u) + |r|];
    forall k | 0 <= k < |r| ensures r[k] != ',' {
      assert r[k] == u[LeadingSpaces(u) + k];
    }
  }

  // ---------------------------------------------------------------- getImprovementDetail

  /** One cell of a detail row written over the record: cells 1 to 6 are
      Type, Description, Class, ExteriorWall, YearBuilt and SqFt (with the
      first " sqft" removed); cell 0 and cells from 7 on are ignored. */
  function SetDetailCell(d: ImprovDetail, i: nat, text: string): ImprovDetail {
    match i
    case 1 => d.(improvementType := TrimSpace(text))
    case 2 => d.(description := TrimSpace(text))
    case 3 => d.(detailClass := TrimSpace(text))
    case 4 => d.(exteriorWall := TrimSpace(text))
    case 5 => d.(yearBuilt := TrimSpace(text))
    case 6 => d.(sqFt := AreaText(text))
    case _ => d
  }

  /** One detail row's th and td cells, visited in order over a fresh record. */
  function DetailOf(cells: seq<string>): ImprovDetail {
    if cells == [] then EmptyDetail
    else SetDetailCell(DetailOf(cells[..|cells| - 1]), |cells| - 1, cells[|cells| - 1])
  }

  /** Each field of a detail is read from its own cell, or "" when the row
      is too short. */
  lemma {:induction false} DetailIsPositional(cells: seq<string>)
    ensures DetailOf(cells) == ImprovDetail(TrimmedAt(cells, 1), TrimmedAt(cells, 2), TrimmedAt(cells, 3),
      TrimmedAt(cells, 4), TrimmedAt(cells, 5), AreaOr(cells, 6, ""))
  {
    if cells != [] {
      DetailIsPositional(cells[..|cells| - 1]);
      TrimmedAtSnoc(cells, 1);
      TrimmedAtSnoc(cells, 2);
      TrimmedAtSnoc(cells, 3);
      TrimmedAtSnoc(cells, 4);
      TrimmedAtSnoc(cells, 5);
      TrimmedAtSnoc(cells, 6);
    }
  }

  /** Cell i of a row is cell i of the row without its last cell, unless
      it is that last cell. */
  lemma TrimmedAtSnoc(cells: seq<string>, i: nat)
    requires cells != []
    ensures TrimmedAt(cells, i) == if i == |cells| - 1 then TrimSpace(cells[i]) else TrimmedAt(cells[..|cells| - 1], i)
    ensures AreaOr(cells, i, "") == if i == |cells| - 1 then AreaText(cells[i]) else AreaOr(cells[..|cells| - 1], i, "")
  {
  }

  /** What one detail row contributes: its record, when it has a Description. */
  function RowDetails(row: Row): seq<ImprovDetail> {
    var d := DetailOf(CellTexts(row));
    if d.description != "" then [d] else []
  }

  /** What getImprovementDetail reads from an "improvementDetails" table: the
      rows after the first, in order. */
  function DetailsOf(rows: seq<Row>): seq<ImprovDetail> {
    if |rows| <= 1 then [] else DetailsOf(rows[..|rows| - 1]) + RowDetails(rows[|rows| - 1])
  }

  /** getImprovementDetail: the header row (index 0) is skipped; every
      other row fills a fresh record, kept when its Description is set. */
  method GetImprovementDetail(rows: seq<Row>) returns (improvementDetails: seq<ImprovDetail>)
    ensures improvementDetails == DetailsOf(rows)
  {
    improvementDetails := [];
    var r := 0;
    while r < |rows|
      invariant 0 <= r <= |rows|
      invariant improvementDetails == DetailsOf(rows[..r])
    {
      improvementDetails := VisitDetailRow(rows, r, improvementDetails);
      r := r + 1;
    }
    assert rows[..r] == rows;
  }

  /** The per-row callback of getImprovementDetail: every row but the
      header fills a fresh record, appended when its Description is set. */
  method VisitDetailRow(rows: seq<Row>, rowIndex: nat, details: seq<ImprovDetail>) returns (improvementDetails: seq<ImprovDetail>)
    requires rowIndex < |rows| && details == DetailsOf(rows[..rowIndex])
    ensures improvementDetails == DetailsOf(rows[..rowIndex + 1])
  {
    DetailsOfStep(rows, rowIndex);
    improvementDetails := details;
    if rowIndex != 0 {
      var detail := FillDetail(CellTexts(rows[rowIndex]));
      if detail.description != "" {
        improvementDetails := improvementDetails + [detail];
      }
    }
  }

  /** The loop step of getImprovementDetail: row r adds its details, except
      the header row. */
  lemma DetailsOfStep(rows: seq<Row>, r: nat)
    requires r < |rows|
    ensures DetailsOf(rows[..r + 1]) == if r == 0 then [] else DetailsOf(rows[..r]) + RowDetails(rows[r])
  {
    assert rows[..r + 1][..r] == rows[..r];
  }

  /** The per-cell callback of getImprovementDetail. */
  method FillDetail(cells: seq<string>) returns (detail: ImprovDetail)
    ensures detail == DetailOf(cells)
  {
    detail := EmptyDetail;
    var c := 0;
    while c < |cells|
      invariant 0 <= c <= |cells|
      invariant detail == DetailOf(cells[..c])
    {
      assert cells[..c + 1][..c] == cells[..c];
      match c {
        case 1 => detail := detail.(improvementType := TrimSpace(cells[c]));
        case 2 => detail := detail.(description := TrimSpace(cells[c]));
        case 3 => detail := detail.(detailClass := TrimSpace(cells[c]));
        case 4 => detail := detail.(exteriorWall := TrimSpace(cells[c]));
        case 5 => detail := detail.(yearBuilt := TrimSpace(cells[c]));
        case 6 => detail := detail.(sqFt := AreaText(cells[c]));
        case _ =>
      }
      c := c + 1;
    }
    assert cells[..c] == cells;
  }

  /** `row` yields the detail `d`: its cells describe `d`, which has a Description. */
  predicate YieldsDetail(row: Row, d: ImprovDetail) {
    d == DetailOf(CellTexts(row)) && d.description != ""
  }

  lemma RowDetailsYields(row: Row, d: ImprovDetail)
    ensures d in RowDetails(row) <==> YieldsDetail(row, d)
  {
  }

  /** The rows after the header, each read on its own. */
  lemma {:induction false} DetailsOfRowsAfterHeader(rows: seq<Row>)
    requires rows != []
    ensures DetailsOf(rows) == ConcatMap(rows[1..], RowDetails)
  {
    if |rows| > 1 {
      var init := rows[..|rows| - 1];
      DetailsOfRowsAfterHeader(init);
      ConcatMapSuffixSnoc(rows, 1, RowDetails);
    }
  }

  lemma DetailsMembership(rows: seq<Row>, d: ImprovDetail)
    ensures d in DetailsOf(rows) <==> exists k :: 1 <= k < |rows| && YieldsDetail(rows[k], d)
  {
    if rows != [] {
      DetailsOfRowsAfterHeader(rows);
      var tail := rows[1..];
      ConcatMapMembershipAt(tail, RowDetails, d);
      if d in DetailsOf(rows) {
        var i :| 0 <= i < |tail| && d in RowDetails(tail[i]);
        RowDetailsYields(tail[i], d);
        assert YieldsDetail(rows[i + 1], d);
      }
      if exists k :: 1 <= k < |rows| && YieldsDetail(rows[k], d) {
        var k :| 1 <= k < |rows| && YieldsDetail(rows[k], d);
        RowDetailsYields(rows[k], d);
        assert d in RowDetails(tail[k - 1]);
      }
    }
  }

  /** The header row contributes nothing, whatever it holds. */
  lemma HeaderRowIgnored(header: Row, header': Row, rows: seq<Row>)
    ensures DetailsOf([header] + rows) == DetailsOf([header'] + rows)
  {
    DetailsOfRowsAfterHeader([header] + rows);
    DetailsOfRowsAfterHeader([header'] + rows);
    assert ([header] + rows)[1..] == rows;
    assert ([header'] + rows)[1..] == rows;
  }

  // ---------------------------------------------------------------- getImprovements

  /** The loop state of getImprovements: the current improvement and what
      has been appended so far. */
  datatype ScanState = ScanState(current: Improvement, emitted: seq<Improvement>)

  const Start := ScanState(EmptyImprovement, [])

  /** What one table does to the current improvement: an "improvements"
      table replaces it wholesale; an "improvementDetails" table with detail
      list D sets its details to D followed by D again; any other table
      leaves it as it is. The class attribute is compared as a whole. */
  function NextImprovement(current: Improvement, t: Table): Improvement {
    if t.classAttr == ImprovementsClass then ImprovementOf(t.rows)
    else if t.classAttr == DetailsClass then
      var d := DetailsOf(t.rows);
      current.(details := d + d)
    else current
  }

  /** One table visited: the current improvement is updated, then appended
      when it has a Name, whatever the table's class. */
  function Visit(s: ScanState, t: Table): ScanState {
    var imp := NextImprovement(s.current, t);
    ScanState(imp, s.emitted + (if imp.name != "" then [imp] else []))
  }

  /** The tables visited in document order. */
  function Scan(s: ScanState, tables: seq<Table>): ScanState {
    if tables == [] then s else Visit(Scan(s, tables[..|tables| - 1]), tables[|tables| - 1])
  }

  /** `passes` scans of all the tables, the state carried from one to the next. */
  function Passes(passes: nat, tables: seq<Table>): ScanState {
    if passes == 0 then Start else Scan(Passes(passes - 1, tables), tables)
  }

  /** What getImprovements extracts. */
  function Improvements(doc: Document): seq<Improvement> {
    Passes(doc.buildingContainers, doc.tables).emitted
  }

  /** getImprovements. */
  method GetImprovements(doc: Document) returns (improvements: seq<Improvement>)
    ensures improvements == Improvements(doc)
  {
    var s := Start;
    var k := 0;
    while k < doc.buildingContainers
      invariant 0 <= k <= doc.buildingContainers
      invariant s == Passes(k, doc.tables)
    {
      s := ScanTables(s, doc.tables);
      k := k + 1;
    }
    improvements := s.emitted;
  }

  /** One pass of getImprovements over every table of the document. */
  method ScanTables(s0: ScanState, tables: seq<Table>) returns (s: ScanState)
    ensures s == Scan(s0, tables)
  {
    var improvement := s0.current;
    var improvements := s0.emitted;
    var t := 0;
    while t < |tables|
      invariant 0 <= t <= |tables|
      invariant ScanState(improvement, improvements) == Scan(s0, tables[..t])
    {
      assert tables[..t + 1][..t] == tables[..t];
      var table := tables[t];
      var improvementDetails: seq<ImprovDetail> := [];
      var detailsRead := false;
      if table.classAttr == ImprovementsClass {
        improvement := GetImprovement(table.rows);
      }
      if table.classAttr == DetailsClass {
        improvementDetails := GetImprovementDetail(table.rows);
        detailsRead := true;
      }
      if detailsRead {
        improvement := improvement.(details := improvementDetails + improvementDetails);
      }
      if improvement.name != "" {
        improvements := improvements + [improvement];
      }
      t := t + 1;
    }
    assert tables[..t] == tables;
    s := ScanState(improvement, improvements);
  }

  /** A detail list made of one list written twice. */
  predicate Doubled(d: seq<ImprovDetail>) {
    |d| % 2 == 0 && d[..|d| / 2] == d[|d| / 2..]
  }

  /** A state in which the current improvement and every appended one have
      doubled details and every appended one has a Name. */
  predicate Consistent(s: ScanState) {
    Doubled(s.current.details) && forall x :: x in s.emitted ==> Doubled(x.details) && x.name != ""
  }

  lemma DoubledTwice(d: seq<ImprovDetail>)
    ensures Doubled(d + d)
  {
    assert (d + d)[..|d|] == d;
    assert (d + d)[|d|..] == d;
  }

  lemma VisitConsistent(s: ScanState, t: Table)
    requires Consistent(s)
    ensures Consistent(Visit(s, t))
  {
    if t.classAttr == ImprovementsClass {
      ImprovementIsLastCells(t.rows);
    } else if t.classAttr == DetailsClass {
      DoubledTwice(DetailsOf(t.rows));
    }
  }

  lemma {:induction false} ScanConsistent(s: ScanState, tables: seq<Table>)
    requires Consistent(s)
    ensures Consistent(Scan(s, tables))
  {
    if tables != [] {
      ScanConsistent(s, tables[..|tables| - 1]);
      VisitConsistent(Scan(s, tables[..|tables| - 1]), tables[|tables| - 1]);
    }
  }

  lemma {:induction false} PassesConsistent(passes: nat, tables: seq<Table>)
    ensures Consistent(Passes(passes, tables))
  {
    if passes > 0 {
      PassesConsistent(passes - 1, tables);
      ScanConsistent(Passes(passes - 1, tables), tables);
    }
  }

  /** Every extracted improvement has a Name, and its details are one list
      written twice (so never of odd length). */
  lemma ImprovementsNamedAndDoubled(doc: Document)
    ensures forall x :: x in Improvements(doc) ==> x.name != "" && Doubled(x.details)
  {
    PassesConsistent(doc.buildingContainers, doc.tables);
  }

  /** At most one improvement per table visited: per pass, per table. */
  lemma {:induction false} ScanBound(s: ScanState, tables: seq<Table>)
    ensures |Scan(s, tables).emitted| <= |s.emitted| + |tables|
  {
    if tables != [] {
      ScanBound(s, tables[..|tables| - 1]);
    }
  }

  /** One pass adds at most one improvement per table. */
  lemma PassBound(passes: nat, tables: seq<Table>)
    requires passes > 0
    ensures |Passes(passes, tables).emitted| <= |Passes(passes - 1, tables).emitted| + |tables|
  {
    ScanBound(Passes(passes - 1, tables), tables);
  }

  /** Re-append: a table of any other class, visited while the current
      improvement has a Name, appends that same improvement again. */
  lemma OtherTableReappends(s: ScanState, t: Table)
    requires t.classAttr != ImprovementsClass && t.classAttr != DetailsClass
    requires s.current.name != ""
    ensures Visit(s, t) == ScanState(s.current, s.emitted + [s.current])
  {
  }

  /** An improvement followed by its details table is appended twice: first
      without details, then with the details doubled. */
  lemma ImprovementThenDetails(s: ScanState, imp: Table, det: Table)
    requires imp.classAttr == ImprovementsClass && det.classAttr == DetailsClass
    requires ImprovementOf(imp.rows).name != ""
    ensures Scan(s, [imp, det]).emitted == s.emitted + [ImprovementOf(imp.rows),
      ImprovementOf(imp.rows).(details := DetailsOf(det.rows) + DetailsOf(det.rows))]
  {
    var s1 := Visit(s, imp);
    assert Scan(s, [imp]) == s1 by {
      assert [imp][..0] == [];
    }
    assert Scan(s, [imp, det]) == Visit(s1, det) by {
      assert [imp, det][..1] == [imp];
    }
    assert s1.current == ImprovementOf(imp.rows);
  }

  /** A page without #improvementBuildingDetails yields no improvement; each
      further pass only appends. */
  lemma PassesExtend(passes: nat, tables: seq<Table>)
    ensures Passes(0, tables).emitted == []
    ensures passes > 0 ==> Passes(passes - 1, tables).emitted <= Passes(passes, tables).emitted
  {
    if passes > 0 {
      ScanExtends(Passes(passes - 1, tables), tables);
    }
  }

  lemma {:induction false} ScanExtends(s: ScanState, tables: seq<Table>)
    ensures s.emitted <= Scan(s, tables).emitted
  {
    if tables != [] {
      ScanExtends(s, tables[..|tables| - 1]);
    }
  }

  // ---------------------------------------------------------------- database readers

  /** FromImprovementModel: the stored id, in decimal, is the Name; NULL
      columns read as ""; there are no details. */
  function FromImprovementModel(i: Pgdb.Improvement): (r: Improvement)
    ensures r.name != [] && r.details == []
    ensures Atoi(r.name) == Parsed(i.id as int)
    ensures !i.description.valid ==> r.description == ""
    ensures !i.stateCode.valid ==> r.stateCode == ""
    ensures !i.livingArea.valid ==> r.livingArea == ""
    ensures !i.value.valid ==> r.value == ""
  {
    AtoiFormatInt(i.id as int);
    Improvement(Int32ToString(i.id), NullStringToString(i.description), NullStringToString(i.stateCode),
      NullFloat64ToString(i.livingArea), NullFloat64ToString(i.value), [])
  }

  function DetailFromDB(d: Pgdb.ImprovementDetail): ImprovDetail {
    ImprovDetail(NullStringToString(d.improvementType), NullStringToString(d.description),
      NullStringToString(d.detailClass), NullStringToString(d.exteriorWall),
      NullInt32ToString(d.yearBuilt), NullInt32ToString(d.squareFeet))
  }

  /** FromImprovementDetailDBModel: converts every stored row, keeping count and order. */
  method FromImprovementDetailDBModel(id: seq<Pgdb.ImprovementDetail>) returns (ids: seq<ImprovDetail>)
    ensures |ids| == |id|
    ensures forall i :: 0 <= i < |ids| ==> ids[i] == DetailFromDB(id[i])
  {
    ids := [];
    var i := 0;
    while i < |id|
      invariant 0 <= i <= |id|
      invariant |ids| == i
      invariant forall k :: 0 <= k < i ==> ids[k] == DetailFromDB(id[k])
    {
      ids := ids + [DetailFromDB(id[i])];
      i := i + 1;
    }
  }

  /** NULL columns read back as ""; the numeric ones read "" only when NULL. */
  lemma DetailFromDBNulls(d: Pgdb.ImprovementDetail)
    ensures !d.improvementType.valid ==> DetailFromDB(d).improvementType == ""
    ensures !d.description.valid ==> DetailFromDB(d).description == ""
    ensures !d.detailClass.valid ==> DetailFromDB(d).detailClass == ""
    ensures !d.exteriorWall.valid ==> DetailFromDB(d).exteriorWall == ""
    ensures (DetailFromDB(d).yearBuilt == "") == !d.yearBuilt.valid
    ensures (DetailFromDB(d).sqFt == "") == !d.squareFeet.valid
  {
  }
}
