/**
 * The row loop of `readFileAndStoreData`: rows `8 .. rowCount - 1` of the
 * first worksheet become records, the supplier GSTIN and name being carried
 * from row to row until an empty row clears them.
 */
module Extractor {
  import opened Wrappers
  import opened Spreadsheet
  import opened Records

  /** `effectiveRowStarts`: rows 1 to 7 are a header and never read. */
  const FirstDataRow: nat := 8

  const GstinColumn: nat := 1
  const NameColumn: nat := 2
  const InvoiceNoColumn: nat := 4
  const InvoiceDateColumn: nat := 5
  const InvoiceValueColumn: nat := 6
  const TaxableColumn: nat := 9
  const IgstColumn: nat := 10
  const CgstColumn: nat := 11
  const SgstColumn: nat := 12
  const CessColumn: nat := 13

  /** What every record of one file shares: from its name and from the run. */
  datatype FileContext = FileContext(recipient: string, month: Option<int>, year: Option<int>, processId: Option<string>)

  /** `lastSuppDetails`: the carried supplier GSTIN and name. */
  datatype Carry = Carry(gstin: Option<CellValue>, name: Option<CellValue>)

  const Cleared: Carry := Carry(None, None)

  /** Columns 1 and 2 of a row. */
  function OwnSupplier(row: Row): Carry
  {
    Carry(GetCell(row, GstinColumn), GetCell(row, NameColumn))
  }

  /** The carried supplier is reloaded when EITHER of its fields is falsy. */
  predicate NeedsReload(c: Carry)
  {
    !IsTruthy(c.name) || !IsTruthy(c.gstin)
  }

  function Reload(c: Carry, row: Row): Carry
  {
    if NeedsReload(c) then OwnSupplier(row) else c
  }

  /** The record one non-empty row yields, under supplier `c`. */
  function MakeRecord(ctx: FileContext, c: Carry, row: Row): Record
  {
    Record(
      recpgstin := ctx.recipient,
      suppgstin := c.gstin,
      processId := ctx.processId,
      suppname := c.name,
      igst := ParseCell(GetCell(row, IgstColumn)),
      cgst := ParseCell(GetCell(row, CgstColumn)),
      sgst := ParseCell(GetCell(row, SgstColumn)),
      cess := ParseCell(GetCell(row, CessColumn)),
      taxable := ParseCell(GetCell(row, TaxableColumn)),
      month := ctx.month,
      year := ctx.year,
      invoiceDate := GetCell(row, InvoiceDateColumn),
      invoiceValue := ParseCell(GetCell(row, InvoiceValueColumn)),
      invoiceNo := GetCell(row, InvoiceNoColumn))
  }

  /** The records of rows `i .. rowCount - 1` when `c` is carried into row `i`. */
  function ExtractFrom(sheet: Sheet, ctx: FileContext, i: nat, c: Carry): seq<Record>
    decreases sheet.rowCount - i
  {
    if i >= sheet.rowCount then []
    else
      var row := GetRow(sheet, i);
      var loaded := Reload(c, row);
      if IsEmptyRow(row) then ExtractFrom(sheet, ctx, i + 1, Cleared)
      else [MakeRecord(ctx, loaded, row)] + ExtractFrom(sheet, ctx, i + 1, loaded)
  }

  /** The records of one worksheet, in row order. */
  function Extract(sheet: Sheet, ctx: FileContext): seq<Record>
  {
    ExtractFrom(sheet, ctx, FirstDataRow, Cleared)
  }

  /** The loop itself: `for (let i = effectiveRowStarts; i < lastRow; i += 1)`. */
  method ExtractRows(sheet: Sheet, ctx: FileContext) returns (data: seq<Record>)
    ensures data == Extract(sheet, ctx)
  {
    var lastRow := sheet.rowCount;
    var lastSupp := Cleared;
    data := [];
    var i := FirstDataRow;
    while i < lastRow
      invariant FirstDataRow <= i
      invariant data + ExtractFrom(sheet, ctx, i, lastSupp) == Extract(sheet, ctx)
    {
      var row := GetRow(sheet, i);
      if NeedsReload(lastSupp) {
        lastSupp := OwnSupplier(row);
      }
      if IsEmptyRow(row) {
        lastSupp := Cleared;
      } else {
        data := data + [MakeRecord(ctx, lastSupp, row)];
      }
      i := i + 1;
    }
  }

  // ---------------------------------------------------------------------
  // A row-by-row description of the same result, and what it tells.

  /** The supplier carried into row `i`. */
  function CarryBefore(sheet: Sheet, i: nat): Carry
    requires i >= FirstDataRow
    decreases i
  {
    if i == FirstDataRow then Cleared
    else if IsEmptyRow(GetRow(sheet, i - 1)) then Cleared
    else Reload(CarryBefore(sheet, i - 1), GetRow(sheet, i - 1))
  }

  /** The supplier row `i`'s record carries (after the reload check). */
  function SupplierAt(sheet: Sheet, i: nat): Carry
    requires i >= FirstDataRow
  {
    Reload(CarryBefore(sheet, i), GetRow(sheet, i))
  }

  /** Row `i` takes its supplier from its own columns 1 and 2. */
  predicate Reloads(sheet: Sheet, i: nat)
    requires i >= FirstDataRow
  {
    NeedsReload(CarryBefore(sheet, i))
  }

  /** Each non-empty row of `i .. rowCount - 1` gives its record under `SupplierAt`. */
  function RowRecords(sheet: Sheet, ctx: FileContext, i: nat): seq<Record>
    requires i >= FirstDataRow
    decreases sheet.rowCount - i
  {
    if i >= sheet.rowCount then []
    else
      var row := GetRow(sheet, i);
      (if IsEmptyRow(row) then [] else [MakeRecord(ctx, SupplierAt(sheet, i), row)])
        + RowRecords(sheet, ctx, i + 1)
  }

  /** The number of non-empty rows among `lo .. hi - 1`. */
  function NonEmptyRows(sheet: Sheet, lo: nat, hi: nat): nat
    decreases hi - lo
  {
    if lo >= hi then 0
    else (if IsEmptyRow(GetRow(sheet, lo)) then 0 else 1) + NonEmptyRows(sheet, lo + 1, hi)
  }

  lemma {:induction false} NonEmptyRowsSplit(sheet: Sheet, lo: nat, mid: nat, hi: nat)
    requires lo <= mid <= hi
    ensures NonEmptyRows(sheet, lo, hi) == NonEmptyRows(sheet, lo, mid) + NonEmptyRows(sheet, mid, hi)
    decreases mid - lo
  {
    if lo < mid {
      NonEmptyRowsSplit(sheet, lo + 1, mid, hi);
    }
  }

  /** The loop's carried state is exactly `CarryBefore`, so both descriptions agree. */
  lemma {:induction false} ExtractIsRowRecords(sheet: Sheet, ctx: FileContext, i: nat)
    requires i >= FirstDataRow
    ensures ExtractFrom(sheet, ctx, i, CarryBefore(sheet, i)) == RowRecords(sheet, ctx, i)
    decreases sheet.rowCount - i
  {
    if i < sheet.rowCount {
      ExtractIsRowRecords(sheet, ctx, i + 1);
      var row := GetRow(sheet, i);
      if IsEmptyRow(row) {
        assert CarryBefore(sheet, i + 1) == Cleared;
      } else {
        assert CarryBefore(sheet, i + 1) == SupplierAt(sheet, i);
      }
    }
  }

  lemma {:induction false} RowRecordsCount(sheet: Sheet, ctx: FileContext, i: nat)
    requires i >= FirstDataRow
    ensures |RowRecords(sheet, ctx, i)| == NonEmptyRows(sheet, i, sheet.rowCount)
    decreases sheet.rowCount - i
  {
    if i < sheet.rowCount {
      RowRecordsCount(sheet, ctx, i + 1);
    }
  }

  lemma {:induction false} RowRecordsAt(sheet: Sheet, ctx: FileContext, i: nat, j: nat)
    requires FirstDataRow <= i <= j < sheet.rowCount
    requires !IsEmptyRow(GetRow(sheet, j))
    ensures NonEmptyRows(sheet, i, j) < |RowRecords(sheet, ctx, i)|
    ensures RowRecords(sheet, ctx, i)[NonEmptyRows(sheet, i, j)] == MakeRecord(ctx, SupplierAt(sheet, j), GetRow(sheet, j))
    decreases j - i
  {
    RowRecordsCount(sheet, ctx, i);
    NonEmptyRowsSplit(sheet, i, j, sheet.rowCount);
    assert NonEmptyRows(sheet, j, sheet.rowCount) >= 1;
    if i < j {
      RowRecordsAt(sheet, ctx, i + 1, j);
    }
  }

  /** Exactly one record per non-empty row among rows 8 .. rowCount - 1. */
  lemma RecordCount(sheet: Sheet, ctx: FileContext)
    ensures |Extract(sheet, ctx)| == NonEmptyRows(sheet, FirstDataRow, sheet.rowCount)
  {
    ExtractIsRowRecords(sheet, ctx, FirstDataRow);
    RowRecordsCount(sheet, ctx, FirstDataRow);
  }

  /**
   * The non-empty row `j` gives the record at position "number of non-empty
   * rows before it", built from its own cells and the supplier `SupplierAt`.
   */
  lemma RecordOfRow(sheet: Sheet, ctx: FileContext, j: nat)
    requires FirstDataRow <= j < sheet.rowCount && !IsEmptyRow(GetRow(sheet, j))
    ensures NonEmptyRows(sheet, FirstDataRow, j) < |Extract(sheet, ctx)|
    ensures Extract(sheet, ctx)[NonEmptyRows(sheet, FirstDataRow, j)]
         == MakeRecord(ctx, SupplierAt(sheet, j), GetRow(sheet, j))
  {
    ExtractIsRowRecords(sheet, ctx, FirstDataRow);
    RowRecordsAt(sheet, ctx, FirstDataRow, j);
  }

  /**
   * Row 8, a row after an empty row, and a row after one whose supplier has
   * a falsy field, take the supplier from their own columns 1 and 2.
   */
  lemma SupplierReloaded(sheet: Sheet, ctx: FileContext, j: nat)
    requires FirstDataRow <= j < sheet.rowCount && !IsEmptyRow(GetRow(sheet, j))
    requires j == FirstDataRow || IsEmptyRow(GetRow(sheet, j - 1)) || NeedsReload(SupplierAt(sheet, j - 1))
    ensures Reloads(sheet, j)
    ensures NonEmptyRows(sheet, FirstDataRow, j) < |Extract(sheet, ctx)|
    ensures Extract(sheet, ctx)[NonEmptyRows(sheet, FirstDataRow, j)].suppgstin == GetCell(GetRow(sheet, j), GstinColumn)
    ensures Extract(sheet, ctx)[NonEmptyRows(sheet, FirstDataRow, j)].suppname == GetCell(GetRow(sheet, j), NameColumn)
  {
    RecordOfRow(sheet, ctx, j);
  }

  /**
   * Otherwise the supplier is carried: two adjacent non-empty rows, the first
   * with a truthy GSTIN and name, give adjacent records with the same
   * supplier GSTIN and name.
   */
  lemma SupplierCarried(sheet: Sheet, ctx: FileContext, j: nat)
    requires FirstDataRow < j < sheet.rowCount
    requires !IsEmptyRow(GetRow(sheet, j - 1)) && !IsEmptyRow(GetRow(sheet, j))
    requires !NeedsReload(SupplierAt(sheet, j - 1))
    ensures !Reloads(sheet, j)
    ensures var k := NonEmptyRows(sheet, FirstDataRow, j - 1);
      && k + 1 < |Extract(sheet, ctx)|
      && NonEmptyRows(sheet, FirstDataRow, j) == k + 1
      && Extract(sheet, ctx)[k + 1].suppgstin == Extract(sheet, ctx)[k].suppgstin
      && Extract(sheet, ctx)[k + 1].suppname == Extract(sheet, ctx)[k].suppname
  {
    RecordOfRow(sheet, ctx, j - 1);
    RecordOfRow(sheet, ctx, j);
    NonEmptyRowsSplit(sheet, FirstDataRow, j - 1, j);
    assert NonEmptyRows(sheet, j - 1, j) == 1;
  }

  lemma {:induction false} ExtractFromContext(sheet: Sheet, ctx: FileContext, i: nat, c: Carry)
    ensures forall r <- ExtractFrom(sheet, ctx, i, c) ::
      r.recpgstin == ctx.recipient && r.month == ctx.month && r.year == ctx.year && r.processId == ctx.processId
    decreases sheet.rowCount - i
  {
    if i < sheet.rowCount {
      ExtractFromContext(sheet, ctx, i + 1, Cleared);
      ExtractFromContext(sheet, ctx, i + 1, Reload(c, GetRow(sheet, i)));
    }
  }

  /** Every record of a file carries the file's recipient, month, year and the run id. */
  lemma RecordsCarryContext(sheet: Sheet, ctx: FileContext)
    ensures forall r <- Extract(sheet, ctx) ::
      r.recpgstin == ctx.recipient && r.month == ctx.month && r.year == ctx.year && r.processId == ctx.processId
  {
    ExtractFromContext(sheet, ctx, FirstDataRow, Cleared);
  }

  lemma {:induction false} ExtractFromFrame(s1: Sheet, s2: Sheet, ctx: FileContext, i: nat, c: Carry)
    requires s1.rowCount == s2.rowCount
    requires forall k :: i <= k < s1.rowCount ==> GetRow(s1, k) == GetRow(s2, k)
    ensures ExtractFrom(s1, ctx, i, c) == ExtractFrom(s2, ctx, i, c)
    decreases s1.rowCount - i
  {
    if i < s1.rowCount {
      assert GetRow(s1, i) == GetRow(s2, i);
      ExtractFromFrame(s1, s2, ctx, i + 1, Cleared);
      ExtractFromFrame(s1, s2, ctx, i + 1, Reload(c, GetRow(s1, i)));
    }
  }

  /**
   * Only rows 8 .. rowCount - 1 are read: the header rows 1 to 7 and the row
   * numbered `rowCount` itself can be anything.
   */
  lemma OnlyDataRowsRead(s1: Sheet, s2: Sheet, ctx: FileContext)
    requires s1.rowCount == s2.rowCount
    requires forall k :: FirstDataRow <= k < s1.rowCount ==> GetRow(s1, k) == GetRow(s2, k)
    ensures Extract(s1, ctx) == Extract(s2, ctx)
  {
    ExtractFromFrame(s1, s2, ctx, FirstDataRow, Cleared);
  }
}
