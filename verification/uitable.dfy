/** The part of the uitable package the renderer uses. A table is local to the
    renderer and never shared, so it is modelled by its value: the rows added
    so far and its MaxColWidth. How a table is laid out as text is not
    modelled; it is an arbitrary function of that value. */
module UiTables {

  /** One table row: a caption cell and a value cell, as displayed. */
  datatype Row = Row(caption: string, value: string)

  datatype UiTable = UiTable(rows: seq<Row>, maxColWidth: nat)
  {
    /** AddRow appends one row after the existing ones. */
    function AddRow(caption: string, value: string): (t: UiTable)
      ensures |t.rows| == |rows| + 1
      ensures t.rows[..|rows|] == rows && t.rows[|rows|] == Row(caption, value)
      ensures t.maxColWidth == maxColWidth
    {
      UiTable(rows + [Row(caption, value)], maxColWidth)
    }
  }

  /** uitable.New(): no rows, no column-width limit set. */
  function NewTable(): (t: UiTable)
    ensures t.rows == [] && t.maxColWidth == 0
  {
    UiTable([], 0)
  }

  /** How fmt.Sprint prints a table. */
  type Layout = UiTable -> string
}
