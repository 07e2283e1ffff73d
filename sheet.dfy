/**
 * The worksheet of the social-graph workbook as the script sees it through openpyxl:
 * a sparse map from (row, column), both counted from 1, to a cell value. A key that
 * is absent is an empty cell, whose value openpyxl reports as None.
 */
module Sheet {
  import opened Wrappers

  /** The cell values the model distinguishes: text and whole numbers. */
  datatype Cell = Text(s: string) | Number(n: int)

  type Grid = map<(int, int), Cell>

  /** Zero-based column indexes of the handles and of the factions; openpyxl columns are these plus one. */
  const HandlesCol: int := 2
  const FactionsCol: int := 3

  /** `sheet.cell(row=r, column=c).value`. */
  function Get(grid: Grid, key: (int, int)): Option<Cell>
  {
    if key in grid then Some(grid[key]) else None
  }

  /** Python truthiness of a cell value: None, the empty string and 0 are false. */
  predicate Truthy(v: Option<Cell>)
  {
    match v
    case None => false
    case Some(Text(s)) => s != ""
    case Some(Number(n)) => n != 0
  }
}
