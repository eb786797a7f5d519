/** GenericGrid.cs: a grid over a list of arbitrary items that must all be
    `Dictionary<string, object>` rows; the columns are the keys of the first row. */
module GenericGrids {
  import opened Values
  import opened GridBase

  /** What `Cast<Dictionary<string, object>>` lets through: null and dictionaries. */
  predicate Castable(v: Value)
  {
    v.Null? || v.Dictionary?
  }

  /** Position `i` holds the first element that cannot be cast. */
  predicate FirstUncastable(data: seq<Value>, i: int)
  {
    0 <= i < |data| && !Castable(data[i]) && forall j :: 0 <= j < i ==> Castable(data[j])
  }

  /** One element of `gridData.Cast<Dictionary<string, object>>()`. */
  function AsRow(v: Value): (r: Result<Option<Row>>)
    ensures r.Ok? <==> Castable(v)
    ensures v.Null? ==> r == Ok(None)
    ensures v.Dictionary? ==> r == Ok(Some(v.row))
    ensures r.Err? ==> r.error == InvalidCast(v, DictionaryType)
  {
    match v
    case Null => Ok(None)
    case Dictionary(row) => Ok(Some(row))
    case _ => Err(InvalidCast(v, DictionaryType))
  }

  /** `gridData.Cast<Dictionary<string, object>>().ToList()`: every element converted in
      order, failing on the first one that is neither null nor a dictionary. */
  function CastRecords(data: seq<Value>): (r: Result<seq<Option<Row>>>)
    ensures r.Ok? <==> forall i :: 0 <= i < |data| ==> Castable(data[i])
    ensures r.Ok? ==>
              |r.value| == |data| && forall i :: 0 <= i < |data| ==> Ok(r.value[i]) == AsRow(data[i])
    ensures r.Err? ==>
              exists i :: FirstUncastable(data, i) && r.error == InvalidCast(data[i], DictionaryType)
  {
    if data == [] then Ok([])
    else
      match AsRow(data[0])
      case Err(e) => Err(e)
      case Ok(first) =>
        match CastRecords(data[1..])
        case Err(e) =>
          ghost var k :| FirstUncastable(data[1..], k) && e == InvalidCast(data[1..][k], DictionaryType);
          assert FirstUncastable(data, k + 1);
          Err(e)
        case Ok(rest) =>
          assert forall i :: 1 <= i < |data| ==> Ok(rest[i - 1]) == AsRow(data[i]);
          Ok([first] + rest)
  }

  /** `BuildGridColumns`: no columns for an empty list; otherwise one column per key of
      the first row, in key order. A null first row throws `NullReferenceException`;
      the later rows are not consulted. */
  function BuildGridColumns(records: seq<Option<Row>>, filters: map<string, Value>): (r: Result<seq<Descriptor>>)
    ensures records == [] ==> r == Ok([])
    ensures records != [] && records[0].None? ==> r == Err(NullReference)
    ensures records != [] && records[0].Some? ==>
              r.Ok? && |r.value| == |records[0].value.keys| &&
              forall i :: 0 <= i < |r.value| ==> r.value[i] == ColumnDefinition(records[0].value.keys[i], filters)
  {
    if records == [] then Ok([])
    else if records[0].None? then Err(NullReference)
    else Ok(ColumnsFor(records[0].value.keys, filters))
  }

  /** `Render`: a stack holding the dictionary data grid over the rows. The columns are a
      fragment the data grid runs when it renders, after this render has returned, so a
      failure to build them travels inside that fragment and is not raised here. */
  function Render(records: seq<Option<Row>>, filters: map<string, Value>): Descriptor
  {
    StackWrap(DataGridDescriptor(DictionaryType, Rows(records), ColumnsValue(BuildGridColumns(records, filters))))
  }

  /** A generic grid always renders, as a stack whose only child is the dictionary data
      grid over the rows. Its columns fragment emits the first row's columns when there
      are no records or the first row is not null, and otherwise throws a null
      reference once the data grid runs it. */
  lemma RenderedGrid(records: seq<Option<Row>>, filters: map<string, Value>)
    ensures Render(records, filters).kind == StackComponent
    ensures Render(records, filters).attrs.Keys == {"ChildContent"}
    ensures var content := Render(records, filters).attrs["ChildContent"];
            content.Fragment? && |content.components| == 1 &&
            var grid := content.components[0];
            grid.kind == DataGridComponent(DictionaryType) && "Data" in grid.attrs && "Columns" in grid.attrs &&
            grid.attrs["Data"] == Rows(records) &&
            ((records == [] || records[0].Some?) ==>
               grid.attrs["Columns"] == Fragment(BuildGridColumns(records, filters).value)) &&
            (records != [] && records[0].None? ==> grid.attrs["Columns"] == Throwing(NullReference))
  {
  }

  /** Rows after the first never change the columns. */
  lemma ColumnsFromFirstRowOnly(first: Row, rest: seq<Option<Row>>, other: seq<Option<Row>>, filters: map<string, Value>)
    ensures BuildGridColumns([Some(first)] + rest, filters) == BuildGridColumns([Some(first)] + other, filters)
  {
  }

  /** Two rows `{Name: "A", Age: 30}` and `{Name: "B"}` give the columns Name and Age,
      in that order, and the second row's Age cell shows null. */
  lemma TwoRowsScenario()
    ensures var r1 := Row(["Name", "Age"], map["Name" := Str("A"), "Age" := Int(30)]);
            var r2 := Row(["Name"], map["Name" := Str("B")]);
            var cols := BuildGridColumns(CastRecords([Dictionary(r1), Dictionary(r2)]).value, map[]);
            CastRecords([Dictionary(r1), Dictionary(r2)]) == Ok([Some(r1), Some(r2)]) &&
            cols == Ok([ColumnDefinition("Name", map[]), ColumnDefinition("Age", map[])]) &&
            CellValue("Age", r2) == Null && CellValue("Age", r1) == Int(30)
  {
    var r1 := Row(["Name", "Age"], map["Name" := Str("A"), "Age" := Int(30)]);
    var r2 := Row(["Name"], map["Name" := Str("B")]);
    var data := [Dictionary(r1), Dictionary(r2)];
    var rows := CastRecords(data).value;
    assert rows[0] == Some(r1) && rows[1] == Some(r2);
    assert rows == [Some(r1), Some(r2)];
    var cols := ColumnsFor(r1.keys, map[]);
    assert cols[0] == ColumnDefinition("Name", map[]) && cols[1] == ColumnDefinition("Age", map[]);
    assert cols == [ColumnDefinition("Name", map[]), ColumnDefinition("Age", map[])];
  }

  /** A list holding anything other than dictionaries and nulls cannot become a grid. */
  lemma NonDictionaryRejected(data: seq<Value>, i: nat)
    requires i < |data| && !Castable(data[i])
    ensures CastRecords(data).Err?
    ensures CastRecords(data).error.InvalidCast? && !Castable(CastRecords(data).error.value)
  {
  }
}
