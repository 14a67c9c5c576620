/** The generic data table: one header per column, one body row per data
    element and, in each row, one cell per column, drawn by the column's
    renderer when it has one and from the raw field otherwise. */
module DataTable {
  import opened Common

  /** A column: its header, the field it reads and an optional renderer
      taking the field's value and the whole row. Rendered content is
      modelled as text. */
  datatype Column = Column(header: string, accessor: string, cell: Option<(Value, Record) -> string>)

  /** A body cell: the renderer's output, or the raw field value. */
  datatype Cell = Rendered(text: string) | RawValue(value: Value)

  /** `{title && <h3>{title}</h3>}`: the heading is drawn, with the title's
      text, iff a non-empty title is given. */
  function Heading(title: Option<string>): (heading: Option<string>)
    ensures heading.Some? <==> title.Some? && title.value != ""
    ensures heading.Some? ==> heading.value == title.value
  {
    match title
    case Some(text) => if text != "" then Some(text) else None
    case None => None
  }

  /** The header row, in column order. */
  function HeaderRow(columns: seq<Column>): (headers: seq<string>)
    ensures |headers| == |columns|
    ensures forall i :: 0 <= i < |columns| ==> headers[i] == columns[i].header
  {
    if columns == [] then [] else [columns[0].header] + HeaderRow(columns[1..])
  }

  /** `column.cell ? column.cell(row[accessor], row) : row[accessor]`. */
  function CellFor(column: Column, row: Record): (c: Cell)
    ensures c.Rendered? <==> column.cell.Some?
    ensures column.cell.Some? ==> c.text == column.cell.value(Lookup(row, column.accessor), row)
    ensures column.cell.None? ==> c.value == Lookup(row, column.accessor)
  {
    match column.cell
    case Some(render) => Rendered(render(Lookup(row, column.accessor), row))
    case None => RawValue(Lookup(row, column.accessor))
  }

  /** One row's cells, one per column, in column order. */
  function BodyRow(columns: seq<Column>, row: Record): (cells: seq<Cell>)
    ensures |cells| == |columns|
    ensures forall i :: 0 <= i < |columns| ==> cells[i] == CellFor(columns[i], row)
  {
    if columns == [] then [] else [CellFor(columns[0], row)] + BodyRow(columns[1..], row)
  }

  /** The body: one row per data element, in data order. */
  function Body(columns: seq<Column>, data: seq<Record>): (rows: seq<seq<Cell>>)
    ensures |rows| == |data|
    ensures forall r :: 0 <= r < |data| ==> rows[r] == BodyRow(columns, data[r])
  {
    if data == [] then [] else [BodyRow(columns, data[0])] + Body(columns, data[1..])
  }

  /** Every body row lines up with the header row, and a field the row
      lacks shows as an undefined raw value in an unrendered column. */
  lemma BodyAlignsWithHeaders(columns: seq<Column>, data: seq<Record>, r: int, i: int)
    requires 0 <= r < |data| && 0 <= i < |columns|
    ensures |Body(columns, data)[r]| == |HeaderRow(columns)|
    ensures columns[i].cell.None? && (forall j :: 0 <= j < |data[r]| ==> data[r][j].key != columns[i].accessor)
            ==> Body(columns, data)[r][i] == RawValue(Undefined)
  {
  }

  /** Appending data appends body rows: earlier rows are not redrawn
      differently. */
  lemma {:induction false} BodyAppend(columns: seq<Column>, a: seq<Record>, b: seq<Record>)
    ensures Body(columns, a + b) == Body(columns, a) + Body(columns, b)
  {
    var lhs, rhs := Body(columns, a + b), Body(columns, a) + Body(columns, b);
    assert |lhs| == |rhs|;
    forall r | 0 <= r < |lhs| ensures lhs[r] == rhs[r] {
      if r < |a| { assert (a + b)[r] == a[r]; } else { assert (a + b)[r] == b[r - |a|]; }
    }
  }
}
