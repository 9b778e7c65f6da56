/** The little of a pandas DataFrame the dashboard relies on: a list of rows
    and the set of its column names. A row that lacks a column reads as a
    missing value there (NaN in pandas, Null here). */
module Frames {
  import opened Records

  datatype Table = Table(columns: set<string>, rows: seq<Row>)

  /** The union of the keys of the rows. */
  function KeysOf(rows: seq<Row>): (keys: set<string>)
    ensures forall c :: c in keys <==> exists i :: 0 <= i < |rows| && c in rows[i]
  {
    if rows == [] then {}
    else
      var init := KeysOf(rows[..|rows| - 1]);
      assert forall i :: 0 <= i < |rows| - 1 ==> rows[..|rows| - 1][i] == rows[i];
      init + rows[|rows| - 1].Keys
  }

  /** pd.DataFrame(rows): every key of any row is a column. */
  function MakeTable(rows: seq<Row>): (t: Table)
    ensures t.rows == rows
    ensures forall c :: c in t.columns <==> exists i :: 0 <= i < |rows| && c in rows[i]
  {
    Table(KeysOf(rows), rows)
  }

  /** The value of a row in a column: its field, or missing. */
  function Cell(row: Row, column: string): Field
  {
    if column in row then row[column] else Leaf(Null)
  }
}
