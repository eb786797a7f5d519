/** RecordGrid.cs: a grid over external records; the columns are the columns of the
    first record. */
module RecordGrids {
  import opened Values
  import opened GridBase

  /** The titles of `columns`, in order. */
  function Titles(columns: seq<Column>): (titles: seq<string>)
    ensures |titles| == |columns|
    ensures forall i :: 0 <= i < |columns| ==> titles[i] == columns[i].title
  {
    if columns == [] then [] else [columns[0].title] + Titles(columns[1..])
  }

  /** `BuildGridColumns`: no columns for no records; otherwise one column per column of
      the first record, titled with its title, in enumeration order. A null first
      record throws `NullReferenceException`; the later records are not consulted. */
  function BuildGridColumns(data: seq<Option<Record>>, filters: map<string, Value>): (r: Result<seq<Descriptor>>)
    ensures data == [] ==> r == Ok([])
    ensures data != [] && data[0].None? ==> r == Err(NullReference)
    ensures data != [] && data[0].Some? ==>
              r.Ok? && |r.value| == |data[0].value.columns| &&
              forall i :: 0 <= i < |r.value| ==> r.value[i] == ColumnDefinition(data[0].value.columns[i].title, filters)
  {
    if data == [] then Ok([])
    else if data[0].None? then Err(NullReference)
    else Ok(ColumnsFor(Titles(data[0].value.columns), filters))
  }

  /** `Render`: a stack holding the record data grid over the records. As in the generic
      grid, the columns are a fragment the data grid runs later, so a failure to build
      them travels inside that fragment. */
  function Render(data: seq<Option<Record>>, filters: map<string, Value>): Descriptor
  {
    StackWrap(DataGridDescriptor(RecordType, Records(data), ColumnsValue(BuildGridColumns(data, filters))))
  }

  /** A record grid always renders, as a stack whose only child is the record data grid
      over the records. Its columns fragment emits the first record's columns when there
      are no records or the first record is not null, and otherwise throws a null
      reference once the data grid runs it. */
  lemma RenderedGrid(data: seq<Option<Record>>, filters: map<string, Value>)
    ensures Render(data, filters).kind == StackComponent
    ensures Render(data, filters).attrs.Keys == {"ChildContent"}
    ensures var content := Render(data, filters).attrs["ChildContent"];
            content.Fragment? && |content.components| == 1 &&
            var grid := content.components[0];
            grid.kind == DataGridComponent(RecordType) && "Data" in grid.attrs && "Columns" in grid.attrs &&
            grid.attrs["Data"] == Records(data) &&
            ((data == [] || data[0].Some?) ==> grid.attrs["Columns"] == Fragment(BuildGridColumns(data, filters).value)) &&
            (data != [] && data[0].None? ==> grid.attrs["Columns"] == Throwing(NullReference))
  {
  }

  /** Every rendered column of a record grid shows the filter value recorded under its
      title, and null when none is recorded. */
  lemma FilterValuesShown(data: seq<Option<Record>>, filters: map<string, Value>, i: nat)
    requires data != [] && data[0].Some? && i < |data[0].value.columns|
    ensures var col := BuildGridColumns(data, filters).value[i];
            var title := data[0].value.columns[i].title;
            col.attrs["Title"] == Str(title) &&
            (title in filters ==> col.attrs["FilterValue"] == filters[title]) &&
            (title !in filters ==> col.attrs["FilterValue"] == Null)
  {
  }

  /** The `foreach` over the column list given to the grid base, as written: a null list
      throws `NullReferenceException`. */
  function EnumerateColumnsAsWritten(columns: Option<seq<Column>>): (r: Result<seq<Column>>)
    ensures columns.None? ==> r == Err(NullReference)
    ensures columns.Some? ==> r == Ok(columns.value)
  {
    match columns
    case None => Err(NullReference)
    case Some(cs) => Ok(cs)
  }

  /** The same enumeration as intended: a null list means no predefined columns, as the
      grid-column constructor of the base already treats it. */
  function EnumerateColumns(columns: Option<seq<Column>>): (cs: seq<Column>)
    ensures columns.None? ==> cs == []
    ensures columns.Some? ==> cs == columns.value
  {
    match columns
    case None => []
    case Some(cs) => cs
  }

  /** The builder's record-list grids always pass a null column list, so as written
      they always throw; as intended they build a grid with no predefined columns. The
      two agree whenever a list is given. */
  lemma NullColumnsFinding(columns: Option<seq<Column>>)
    ensures EnumerateColumnsAsWritten(None).Err? && EnumerateColumns(None) == []
    ensures columns.Some? ==> EnumerateColumnsAsWritten(columns) == Ok(EnumerateColumns(columns))
  {
  }
}
