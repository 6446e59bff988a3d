/**
 * One row of the `process_data` table (src/main/main.ts:56) without its
 * `id`.  `None` is SQL `NULL`; SQLite stores a `NaN` as `NULL`, so a field
 * whose `parseFloat`/`parseInt` gave `NaN` is `None` here.
 */
module Records {
  import opened Wrappers
  import opened Spreadsheet

  datatype Record = Record(
    recpgstin: string,
    suppgstin: Option<CellValue>,
    processId: Option<string>,
    suppname: Option<CellValue>,
    igst: Option<real>,
    cgst: Option<real>,
    sgst: Option<real>,
    cess: Option<real>,
    taxable: Option<real>,
    month: Option<int>,
    year: Option<int>,
    invoiceDate: Option<CellValue>,
    invoiceValue: Option<real>,
    invoiceNo: Option<CellValue>)
}
