/** The accumulator that receives a PostgreSQL result set cell by cell: the
    rows of text, the column names of the first row, and two counters. */
module Scanner {
  import opened Wrappers

  /** Number of cells in all rows. */
  function TotalCells(rows: seq<seq<string>>): nat {
    if |rows| == 0 then 0 else TotalCells(rows[..|rows| - 1]) + |rows[|rows| - 1]|
  }

  /** Adding a cell to the last row adds one cell in all. */
  lemma LastRowGrows(rows: seq<seq<string>>, text: string)
    requires |rows| > 0
    ensures TotalCells(rows[|rows| - 1 := rows[|rows| - 1] + [text]]) == TotalCells(rows) + 1
  {
    var n := |rows|;
    var grown := rows[n - 1 := rows[n - 1] + [text]];
    assert grown[..n - 1] == rows[..n - 1];
  }

  /** A new row of one cell adds one cell in all. */
  lemma NewRowGrows(rows: seq<seq<string>>, text: string)
    ensures TotalCells(rows + [[text]]) == TotalCells(rows) + 1
  {
    assert (rows + [[text]])[..|rows|] == rows;
  }

  /** A table whose rows all have `width` cells holds `|table| * width` cells. */
  lemma {:induction false} UniformTotal(table: seq<seq<string>>, width: nat)
    requires forall i :: 0 <= i < |table| ==> |table[i]| == width
    ensures TotalCells(table) == |table| * width
  {
    if |table| > 0 {
      UniformTotal(table[..|table| - 1], width);
    }
  }

  class Results {
    var results: seq<seq<string>>
    var columns: seq<string>
    var elements: int
    var rows: int

    /** The zero value the driver is handed. */
    constructor()
      ensures results == [] && columns == [] && elements == 0 && rows == 0
    {
      results := [];
      columns := [];
      elements := 0;
      rows := 0;
    }

    /** The counters agree with the rows, and there is one column name per
      cell of the first row. */
    ghost predicate Valid()
      reads this
    {
      && rows == |results|
      && elements == TotalCells(results)
      && |columns| == (if |results| == 0 then 0 else |results[0]|)
    }

    /** Empties the accumulator before a new result set; never fails. */
    method Init() returns (err: Option<string>)
      modifies this
      ensures err == None
      ensures results == [] && columns == [] && elements == 0 && rows == 0
      ensures Valid()
    {
      elements := 0;
      rows := 0;
      results := results[..0];
      columns := columns[..0];
      return None;
    }

    /** Stores one cell.  Column 0 opens a new row; the text goes to the last
      row; the column name is kept while that row is the first one.  A
      column other than 0 before any row would index out of range, hence the
      precondition. */
    method ScanColumn(colIdx: int, colName: string, text: string) returns (err: Option<string>)
      requires colIdx == 0 || |results| > 0
      modifies this
      ensures err == None
      ensures elements == old(elements) + 1
      ensures colIdx == 0 ==> results == old(results) + [[text]] && rows == old(rows) + 1
      ensures colIdx != 0 ==>
        && results == old(results)[|old(results)| - 1 := old(results)[|old(results)| - 1] + [text]]
        && rows == old(rows)
      ensures columns == if |results| == 1 then old(columns) + [colName] else old(columns)
      ensures old(Valid()) ==> Valid()
    {
      var curRow := |results| - 1;
      if colIdx == 0 {
        results := results + [[]];
        curRow := |results| - 1;
        rows := rows + 1;
      }
      if curRow == 0 {
        columns := columns + [colName];
      }
      elements := elements + 1;
      ghost var before := results;
      results := results[curRow := results[curRow] + [text]];
      if colIdx == 0 {
        assert before == old(results) + [[]];
        assert before[curRow] + [text] == [text];
        assert results == old(results) + [[text]];
        NewRowGrows(old(results), text);
      } else {
        LastRowGrows(old(results), text);
      }
      return None;
    }
  }

  /** One row of `|names|` cells, read column by column, is appended whole. */
  method ScanRow(acc: Results, names: seq<string>, row: seq<string>)
    requires |names| > 0 && |row| == |names|
    requires acc.Valid()
    requires acc.columns == if |acc.results| == 0 then [] else names
    modifies acc
    ensures acc.Valid()
    ensures acc.results == old(acc.results) + [row]
    ensures acc.columns == names
  {
    ghost var start := acc.results;
    for j := 0 to |names|
      invariant acc.Valid()
      invariant acc.results == if j == 0 then start else start + [row[..j]]
      invariant acc.columns == if |start| == 0 then names[..j] else names
    {
      ghost var before := acc.results;
      var _ := acc.ScanColumn(j, names[j], row[j]);
      assert row[..j + 1] == row[..j] + [row[j]];
      if j == 0 {
        assert row[..1] == [row[0]];
      } else {
        assert before == start + [row[..j]];
        assert acc.results == start + [row[..j] + [row[j]]];
      }
    }
    assert row[..|names|] == row;
  }

  /** A result set of `|table|` rows of `|names|` columns, read the way the
    driver reads it: Init, then every cell of every row, column by column.
    The accumulator ends up holding exactly the table, with the names as its
    columns. */
  method ScanTable(acc: Results, names: seq<string>, table: seq<seq<string>>)
    requires |names| > 0
    requires forall i :: 0 <= i < |table| ==> |table[i]| == |names|
    modifies acc
    ensures acc.Valid()
    ensures acc.results == table
    ensures acc.columns == if |table| == 0 then [] else names
    ensures acc.rows == |table| && acc.elements == |table| * |names|
  {
    var _ := acc.Init();
    for i := 0 to |table|
      invariant acc.Valid()
      invariant acc.results == table[..i]
      invariant acc.columns == if i == 0 then [] else names
    {
      ScanRow(acc, names, table[i]);
      assert table[..i + 1] == table[..i] + [table[i]];
    }
    assert table[..|table|] == table;
    UniformTotal(table, |names|);
  }
}
