/** The parts of Grid.cs and of its two subclasses that only compute values: filter
    lookup, the per-key cell template, the column definitions and the fixed data grid
    layout both grid kinds render inside a stack. */
module GridBase {
  import opened Values

  /** `GetFilterValue`: the recorded filter value for `key`, or null. */
  function GetFilterValue(filters: map<string, Value>, key: string): (v: Value)
    ensures key in filters ==> v == filters[key]
    ensures key !in filters ==> v.Null?
  {
    if key in filters then filters[key] else Null
  }

  /** What `BuildColumnTemplate(key)` shows for a row: its entry under `key`, or null
      when the row has none. */
  function CellValue(key: string, row: Row): (v: Value)
    ensures key in row.cells ==> v == row.cells[key]
    ensures key !in row.cells ==> v.Null?
  {
    if key in row.cells then row.cells[key] else Null
  }

  /** One `DataGridColumn<Dictionary<string, object>>` for a key or column title; both
      grid kinds use this row type, a record grid included. */
  function ColumnDefinition(title: string, filters: map<string, Value>): (d: Descriptor)
    ensures d.kind == DataGridColumnComponent(DictionaryType)
    ensures d.attrs.Keys == {"Title", "Width", "FilterValue", "Template"}
    ensures d.attrs["Title"] == Str(title) && d.attrs["Width"] == Str("150px")
    ensures d.attrs["FilterValue"] == GetFilterValue(filters, title)
    ensures d.attrs["Template"] == CellTemplate(title)
  {
    Descriptor(DataGridColumnComponent(DictionaryType),
      map["Title" := Str(title), "Width" := Str("150px"),
          "FilterValue" := GetFilterValue(filters, title), "Template" := CellTemplate(title)])
  }

  /** The column definitions for `titles`, one per title in order. */
  function ColumnsFor(titles: seq<string>, filters: map<string, Value>): (cols: seq<Descriptor>)
    ensures |cols| == |titles|
    ensures forall i :: 0 <= i < |titles| ==> cols[i] == ColumnDefinition(titles[i], filters)
  {
    if titles == [] then [] else [ColumnDefinition(titles[0], filters)] + ColumnsFor(titles[1..], filters)
  }

  /** The page sizes offered to the user. */
  const PageSizeOptions: seq<int> := [2, 10, 20, 30]

  /** The data grid both grid kinds render: fixed filtering, picking, paging and sorting
      settings, the data, and the fragment that emits the column definitions. */
  function DataGridDescriptor(rowType: TypeId, data: Value, columns: Value): Descriptor
  {
    Descriptor(DataGridComponent(rowType),
      map["AllowFiltering" := Bool(true), "AllowColumnPicking" := Bool(true), "PageSize" := Int(2),
          "AllowPaging" := Bool(true), "AllowSorting" := Bool(true),
          "FilterMode" := Enum("FilterMode", "SimpleWithMenu"), "ColumnWidth" := Str("300px"),
          "PageSizeOptions" := IntArray(PageSizeOptions), "Data" := data, "Columns" := columns])
  }

  /** The columns fragment handed to a data grid: it emits the built columns, or throws
      the error building them raised. */
  function ColumnsValue(built: Result<seq<Descriptor>>): Value
  {
    match built
    case Ok(cols) => Fragment(cols)
    case Err(e) => Throwing(e)
  }

  /** A stack whose only content is `inner`. */
  function StackWrap(inner: Descriptor): Descriptor
  {
    Descriptor(StackComponent, map["ChildContent" := Fragment([inner])])
  }

  /** Filtering, column picking, paging and sorting are always on, with a simple filter
      with menu, 300px columns and a first page of two rows, one of the offered sizes;
      the data and the columns fragment are passed through unchanged. */
  lemma DataGridSettings(rowType: TypeId, data: Value, columns: Value)
    ensures var d := DataGridDescriptor(rowType, data, columns);
            d.kind == DataGridComponent(rowType) &&
            d.attrs.Keys == {"AllowFiltering", "AllowColumnPicking", "PageSize", "AllowPaging", "AllowSorting",
                             "FilterMode", "ColumnWidth", "PageSizeOptions", "Data", "Columns"} &&
            d.attrs["AllowFiltering"] == d.attrs["AllowColumnPicking"] == Bool(true) &&
            d.attrs["AllowPaging"] == d.attrs["AllowSorting"] == Bool(true) &&
            d.attrs["PageSize"] == Int(2) && d.attrs["ColumnWidth"] == Str("300px") &&
            d.attrs["FilterMode"] == Enum("FilterMode", "SimpleWithMenu") &&
            d.attrs["PageSizeOptions"] == IntArray(PageSizeOptions) && 2 in PageSizeOptions &&
            d.attrs["Data"] == data && d.attrs["Columns"] == columns
  {
  }
}
