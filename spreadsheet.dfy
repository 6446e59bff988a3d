/**
 * The first worksheet of an input workbook as the processor reads it:
 * `sheet.rowCount`, `sheet.getRow(i).actualCellCount` and
 * `sheet.getCell(i, c).value`.
 */
module Spreadsheet {
  import opened Wrappers
  import opened Strings

  /** A populated cell's value: a number or a string. */
  datatype CellValue = Number(x: real) | Text(s: string)

  /** Column number (from 1) to value; an absent column is an empty cell. */
  type Row = map<nat, CellValue>

  /** `rows[k]` is row `k + 1`; `rowCount` is what the workbook reports. */
  datatype Sheet = Sheet(rows: seq<Row>, rowCount: nat)

  /** `sheet.getRow(i)`: a row outside the stored ones has no cells. */
  function GetRow(sheet: Sheet, i: nat): (row: Row)
    ensures 1 <= i <= |sheet.rows| ==> row == sheet.rows[i - 1]
    ensures (i < 1 || |sheet.rows| < i) ==> row == map[]
  {
    if 1 <= i <= |sheet.rows| then sheet.rows[i - 1] else map[]
  }

  /** `getCell(c).value`: `null` (`None`) for an empty cell. */
  function GetCell(row: Row, column: nat): (v: Option<CellValue>)
    ensures v.Some? <==> column in row
  {
    if column in row then Some(row[column]) else None
  }

  /** `getRow(i).actualCellCount === 0`. */
  predicate IsEmptyRow(row: Row)
  {
    |row| == 0
  }

  /** JavaScript truthiness of a cell value: `null`, `""` and `0` are falsy. */
  predicate IsTruthy(v: Option<CellValue>)
  {
    match v
    case None => false
    case Some(Number(x)) => x != 0.0
    case Some(Text(s)) => s != []
  }

  /** `parseFloat(value)`: a number is itself, a string is parsed, `null` is `NaN`. */
  function ParseCell(v: Option<CellValue>): Option<real>
  {
    match v
    case None => None
    case Some(Number(x)) => Some(x)
    case Some(Text(s)) => ParseFloat(s)
  }
}
