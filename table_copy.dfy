/**
 Copying a table selection: the selected cells are laid out in the smallest
 grid that covers them (their bounding box), one grid cell per table cell,
 with the empty string wherever nothing was selected. The grid is what the
 viewer then writes out as tab-separated text.
 */
module TableCopy {
  import opened Optional

  /** One selected table index: its row, its column and the text it shows. */
  datatype Cell = Cell(row: int, column: int, text: string)

  function Rows(selection: seq<Cell>): (rows: seq<int>)
    ensures |rows| == |selection|
    ensures forall k :: 0 <= k < |selection| ==> rows[k] == selection[k].row
  {
    seq(|selection|, k requires 0 <= k < |selection| => selection[k].row)
  }

  function Columns(selection: seq<Cell>): (columns: seq<int>)
    ensures |columns| == |selection|
    ensures forall k :: 0 <= k < |selection| ==> columns[k] == selection[k].column
  {
    seq(|selection|, k requires 0 <= k < |selection| => selection[k].column)
  }

  /** The first entry of the sorted list: the least one. */
  function Least(s: seq<int>): (m: int)
    requires s != []
    ensures m in s
    ensures forall k :: 0 <= k < |s| ==> m <= s[k]
  {
    if |s| == 1 then s[0]
    else
      var rest := Least(s[1..]);
      assert forall k :: 1 <= k < |s| ==> s[k] == s[1..][k - 1];
      if s[0] <= rest then s[0] else rest
  }

  /** The last entry of the sorted list: the greatest one. */
  function Greatest(s: seq<int>): (m: int)
    requires s != []
    ensures m in s
    ensures forall k :: 0 <= k < |s| ==> s[k] <= m
  {
    if |s| == 1 then s[0]
    else
      var rest := Greatest(s[1..]);
      assert forall k :: 1 <= k < |s| ==> s[k] == s[1..][k - 1];
      if rest <= s[0] then s[0] else rest
  }

  /**
   The text the grid holds at table position (row, column) once the cells
   of `selection` have been written in order: the text of the last cell at
   that position, or the empty string if there is none.
   */
  function TextAt(selection: seq<Cell>, row: int, column: int): string
  {
    if selection == [] then ""
    else
      var last := selection[|selection| - 1];
      if last.row == row && last.column == column then last.text
      else TextAt(selection[..|selection| - 1], row, column)
  }

  /** Positions no selected cell occupies stay empty. */
  lemma {:induction false} TextAtUnselected(selection: seq<Cell>, row: int, column: int)
    requires forall k :: 0 <= k < |selection| ==> selection[k].row != row || selection[k].column != column
    ensures TextAt(selection, row, column) == ""
  {
    if selection != [] {
      var front := selection[..|selection| - 1];
      assert forall k :: 0 <= k < |front| ==> front[k] == selection[k];
      TextAtUnselected(front, row, column);
    }
  }

  /** A selected cell not overwritten by a later one at the same position keeps its text. */
  lemma {:induction false} TextAtSelected(selection: seq<Cell>, k: nat)
    requires k < |selection|
    requires forall j :: k < j < |selection| ==>
      selection[j].row != selection[k].row || selection[j].column != selection[k].column
    ensures TextAt(selection, selection[k].row, selection[k].column) == selection[k].text
  {
    if k < |selection| - 1 {
      var front := selection[..|selection| - 1];
      assert forall j :: 0 <= j < |front| ==> front[j] == selection[j];
      TextAtSelected(front, k);
    }
  }

  /**
   `table` is a rows-by-columns grid whose cell (i, j) holds what the cells
   of `written` left at table position (top + i, left + j).
   */
  ghost predicate GridHolds(table: seq<seq<string>>, written: seq<Cell>, top: int, left: int, rows: nat, columns: nat)
  {
    && |table| == rows
    && (forall i :: 0 <= i < rows ==> |table[i]| == columns)
    && forall i, j :: 0 <= i < rows && 0 <= j < columns ==>
         table[i][j] == TextAt(written, top + i, left + j)
  }

  /** The grid before any cell is written: every entry empty. */
  function Blank(rows: nat, columns: nat): (table: seq<seq<string>>)
    ensures |table| == rows
    ensures forall i :: 0 <= i < rows ==> |table[i]| == columns
    ensures forall i, j :: 0 <= i < rows && 0 <= j < columns ==> table[i][j] == ""
  {
    seq(rows, _ => seq(columns, _ => ""))
  }

  /** Writing one more cell inside the bounding box keeps the grid in step with the cells written. */
  lemma WriteCell(table: seq<seq<string>>, written: seq<Cell>, cell: Cell, top: int, left: int, rows: nat, columns: nat)
    requires GridHolds(table, written, top, left, rows, columns)
    requires 0 <= cell.row - top < rows && 0 <= cell.column - left < columns
    ensures GridHolds(table[cell.row - top := table[cell.row - top][cell.column - left := cell.text]],
                      written + [cell], top, left, rows, columns)
  {
  }

  /** The grid copied for a selection: None for an empty selection, nothing being copied then. */
  method CopySelection(selection: seq<Cell>) returns (grid: Option<seq<seq<string>>>)
    ensures grid.None? <==> selection == []
    ensures grid.Some? ==>
      var rows, columns := Rows(selection), Columns(selection);
      var top, left := Least(rows), Least(columns);
      GridHolds(grid.value, selection, top, left, Greatest(rows) - top + 1, Greatest(columns) - left + 1)
  {
    grid := None;
    if selection != [] {
      var rows, columns := Rows(selection), Columns(selection);
      var top, left := Least(rows), Least(columns);
      var rowCount: nat := Greatest(rows) - top + 1;
      var columnCount: nat := Greatest(columns) - left + 1;
      var table := Blank(rowCount, columnCount);
      var n := 0;
      while n < |selection|
        invariant 0 <= n <= |selection|
        invariant GridHolds(table, selection[..n], top, left, rowCount, columnCount)
      {
        var cell := selection[n];
        assert rows[n] == cell.row && columns[n] == cell.column;
        WriteCell(table, selection[..n], cell, top, left, rowCount, columnCount);
        table := table[cell.row - top := table[cell.row - top][cell.column - left := cell.text]];
        assert selection[..n + 1] == selection[..n] + [cell];
        n := n + 1;
      }
      assert selection[..n] == selection;
      grid := Some(table);
    }
  }

  /**
   Every selected cell falls inside the grid, at its offset from the top-left
   corner of the bounding box.
   */
  lemma CellInsideGrid(selection: seq<Cell>, k: nat)
    requires k < |selection|
    ensures var rows, columns := Rows(selection), Columns(selection);
      && 0 <= selection[k].row - Least(rows) < Greatest(rows) - Least(rows) + 1
      && 0 <= selection[k].column - Least(columns) < Greatest(columns) - Least(columns) + 1
  {
  }
}
