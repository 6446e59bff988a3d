/**
 * The output workbook of `processAndWriteOP`: an "All Data" sheet with one
 * row per record of the run and an "Output" sheet with one row per supplier.
 */
module Report {
  import opened Wrappers
  import opened Spreadsheet
  import opened Records
  import opened Store

  datatype OutCell = Blank | TextCell(s: string) | NumberCell(x: real)

  datatype OutSheet = OutSheet(name: string, rows: seq<seq<OutCell>>)

  /** The sheets in the order `addWorksheet` adds them. */
  type Workbook = seq<OutSheet>

  const AllDataName: string := "All Data"
  const OutputName: string := "Output"

  const AllDataHeader: seq<OutCell> :=
    [TextCell("GSTIN"), TextCell("Name"), TextCell("Total Taxable"), TextCell("IGST"), TextCell("CGST"), TextCell("SGST"), TextCell("CESS")]

  const OutputHeader: seq<OutCell> :=
    [TextCell("GSTIN"), TextCell("Name"), TextCell("IGST"), TextCell("CGST"), TextCell("SGST"), TextCell("CESS")]

  /** A stored value as written to a cell; `NULL` leaves the cell empty. */
  function FromValue(v: Option<CellValue>): OutCell
  {
    match v
    case None => Blank
    case Some(Number(x)) => NumberCell(x)
    case Some(Text(s)) => TextCell(s)
  }

  function FromAmount(v: Option<real>): OutCell
  {
    match v
    case None => Blank
    case Some(x) => NumberCell(x)
  }

  /** `[suppgstin, suppname, taxable, igst, cgst, sgst, cess]`. */
  function DetailRow(rec: Record): seq<OutCell>
  {
    [FromValue(rec.suppgstin), FromValue(rec.suppname), FromAmount(rec.taxable),
     FromAmount(rec.igst), FromAmount(rec.cgst), FromAmount(rec.sgst), FromAmount(rec.cess)]
  }

  /** `[suppgstin, suppname, igst, cgst, sgst, cess]` of one group. */
  function GroupRow(g: Group): seq<OutCell>
  {
    [FromValue(g.key.gstin), FromValue(g.key.name),
     FromAmount(g.igst), FromAmount(g.cgst), FromAmount(g.sgst), FromAmount(g.cess)]
  }

  function AllDataSheet(detail: seq<StoredRow>): OutSheet
  {
    OutSheet(AllDataName, [AllDataHeader] + seq(|detail|, i requires 0 <= i < |detail| => DetailRow(detail[i].rec)))
  }

  function OutputSheet(groups: seq<Group>): OutSheet
  {
    OutSheet(OutputName, [OutputHeader] + seq(|groups|, i requires 0 <= i < |groups| => GroupRow(groups[i])))
  }

  function ReportOf(detail: seq<StoredRow>, groups: seq<Group>): Workbook
  {
    [AllDataSheet(detail), OutputSheet(groups)]
  }

  /** The first `addRow` loop: the header, then one row per detail row, in order. */
  method BuildAllDataSheet(detail: seq<StoredRow>) returns (sheet: OutSheet)
    ensures sheet == AllDataSheet(detail)
  {
    var rows := [AllDataHeader];
    for i := 0 to |detail|
      invariant |rows| == i + 1 && rows[0] == AllDataHeader
      invariant forall k :: 0 <= k < i ==> rows[k + 1] == DetailRow(detail[k].rec)
    {
      rows := rows + [DetailRow(detail[i].rec)];
    }
    sheet := OutSheet(AllDataName, rows);
    assert rows == AllDataSheet(detail).rows;
  }

  /** The second `addRow` loop: the header, then one row per group, in order. */
  method BuildOutputSheet(groups: seq<Group>) returns (sheet: OutSheet)
    ensures sheet == OutputSheet(groups)
  {
    var rows := [OutputHeader];
    for i := 0 to |groups|
      invariant |rows| == i + 1 && rows[0] == OutputHeader
      invariant forall k :: 0 <= k < i ==> rows[k + 1] == GroupRow(groups[k])
    {
      rows := rows + [GroupRow(groups[i])];
    }
    sheet := OutSheet(OutputName, rows);
    assert rows == OutputSheet(groups).rows;
  }

  /** "All Data" holds the header and then exactly the detail rows, in order. */
  lemma AllDataSheetRows(detail: seq<StoredRow>)
    ensures var s := AllDataSheet(detail);
      && s.name == AllDataName && |s.rows| == |detail| + 1 && s.rows[0] == AllDataHeader
      && forall i :: 0 <= i < |detail| ==> s.rows[i + 1] == DetailRow(detail[i].rec)
  {
  }

  /** "Output" holds the header and then exactly the groups, in order. */
  lemma OutputSheetRows(groups: seq<Group>)
    ensures var s := OutputSheet(groups);
      && s.name == OutputName && |s.rows| == |groups| + 1 && s.rows[0] == OutputHeader
      && forall i :: 0 <= i < |groups| ==> s.rows[i + 1] == GroupRow(groups[i])
  {
  }

  /**
   * The workbook of a run: "All Data" is the header and one row per record
   * of the run, in ascending id order, and nothing of other runs; "Output"
   * is the header and one row per distinct supplier of the run, whose igst,
   * cgst, sgst and cess are the SQL sums over that supplier's records.
   */
  lemma ReportOfRun(t: Table, key: string)
    requires ValidTable(t)
    ensures var detail := DetailQuery(t, key);
      var groups := AggregateQuery(t, key);
      var wb := ReportOf(detail, groups);
      && |wb| == 2 && wb[0] == AllDataSheet(detail) && wb[1] == OutputSheet(groups)
      && (forall row :: row in detail <==> row in t && InRun(row, key))
      && ValidTable(detail)
      && GroupedBy(groups, Recs(detail))
  {
    forall row ensures row in DetailQuery(t, key) <==> row in t && InRun(row, key) {
      DetailQueryMembership(t, key, row);
    }
    DetailQueryOrdered(t, key);
    AggregateQueryMeaning(t, key);
  }
}
