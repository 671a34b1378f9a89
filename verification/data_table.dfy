/** `DataTable`: the generic table every list page renders its records with. */
module DataTable {
  import opened Wrappers

  /** A column: its header, the record field it shows, and an optional custom renderer whose
      output is of type `C`. */
  datatype Column<-T, C> = Column(header: string, accessor: string, render: Option<T -> C>)

  /** A body cell: the renderer's output, or the field's text. */
  datatype Cell<C> = Rendered(content: C) | Text(text: string)

  /** The table body. The two placeholder rows span every column. */
  datatype Body<C> = SpinnerRow(colSpan: nat) | NoDataRow(colSpan: nat) | Rows(rows: seq<seq<Cell<C>>>)

  /** The header row: one header per column, in column order. */
  function Headers<T, C>(columns: seq<Column<T, C>>): (hs: seq<string>)
    ensures |hs| == |columns|
    ensures forall j :: 0 <= j < |columns| ==> hs[j] == columns[j].header
  {
    seq(|columns|, j requires 0 <= j < |columns| => columns[j].header)
  }

  /** One cell: `col.render ? col.render(item) : String(item[col.accessor])`, where
      `fieldText(item, accessor)` stands for the `String(...)` of the field. */
  function CellOf<T, C>(item: T, col: Column<T, C>, fieldText: (T, string) -> string): (c: Cell<C>)
    ensures c.Rendered? <==> col.render.Some?
    ensures col.render.Some? ==> c == Rendered(col.render.value(item))
    ensures col.render.None? ==> c == Text(fieldText(item, col.accessor))
  {
    match col.render
    case Some(f) => Rendered(f(item))
    case None => Text(fieldText(item, col.accessor))
  }

  /** The body: the spinner row while loading (even with data), the "no data" row for an
      empty list, otherwise one row per record in order with one cell per column in order. */
  function Render<T, C>(data: seq<T>, columns: seq<Column<T, C>>, isLoading: bool,
                        fieldText: (T, string) -> string): (b: Body<C>)
    ensures b.SpinnerRow? <==> isLoading
    ensures b.NoDataRow? <==> !isLoading && |data| == 0
    ensures b.SpinnerRow? || b.NoDataRow? ==> b.colSpan == |columns|
    ensures b.Rows? ==> |b.rows| == |data| > 0
    ensures b.Rows? ==> forall i :: 0 <= i < |data| ==> |b.rows[i]| == |columns|
    ensures b.Rows? ==> forall i, j :: 0 <= i < |data| && 0 <= j < |columns| ==>
              b.rows[i][j] == CellOf(data[i], columns[j], fieldText)
  {
    if isLoading then SpinnerRow(|columns|)
    else if |data| == 0 then NoDataRow(|columns|)
    else Rows(seq(|data|, i requires 0 <= i < |data| =>
                seq(|columns|, j requires 0 <= j < |columns| => CellOf(data[i], columns[j], fieldText))))
  }

  /** The rows of a longer list extend the rows of its prefix: each record's row depends on
      that record alone. */
  lemma RowsExtend<T, C>(a: seq<T>, b: seq<T>, columns: seq<Column<T, C>>, fieldText: (T, string) -> string)
    requires |a| > 0
    ensures Render(a + b, columns, false, fieldText).rows[..|a|] == Render(a, columns, false, fieldText).rows
  {
    var long := Render(a + b, columns, false, fieldText).rows;
    var short := Render(a, columns, false, fieldText).rows;
    forall i | 0 <= i < |a| ensures long[i] == short[i] {
      assert (a + b)[i] == a[i];
    }
  }
}
