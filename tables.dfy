/**
 * Tables as the pipeline reads them from its CSV files: an ordered list of
 * column names and a list of rows.  A row maps a column name to the text in
 * that cell; a column that a row does not map is a missing cell (pandas' NaN).
 */
module Tables {

  type Row = map<string, string>

  datatype Table = Table(columns: seq<string>, rows: seq<Row>)

  /** `row.get(key, default)`. */
  function Get(row: Row, key: string, default: string): string {
    if key in row then row[key] else default
  }

  /** A cell of a column after `fillna("")`: the missing cell reads as "". */
  function Cell(row: Row, column: string): string {
    Get(row, column, "")
  }
}
