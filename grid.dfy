/** Grid.cs: the state both grid kinds share (their grid columns and the filter values
    the columns show), and the construction of GenericGrid.cs and RecordGrid.cs grids.
    A grid is one class here; which kind it is, and the data it shows, is `source`. */
module Grids {
  import opened Values
  import opened GridColumns
  import GridBase
  import GenericGrids
  import RecordGrids

  /** The data of a generic grid (its rows, after the cast) or of a record grid. */
  datatype GridSource = GenericSource(records: seq<Option<Row>>) | RecordSource(data: seq<Option<Record>>)

  class Grid {
    var enabled: bool
    var hidden: bool
    var parent: object?
    var columns: seq<GridColumn>
    /** `FilterValues`: starts empty, and nothing in this model writes it. */
    var filterValues: map<string, Value>
    const source: GridSource

    /** The grid-column constructor: the given columns, or none when the list is null. */
    constructor FromGridColumns(gridColumns: Option<seq<GridColumn>>, source: GridSource,
                                enabled: bool, hidden: bool, parent: object?)
      ensures columns == if gridColumns.Some? then gridColumns.value else []
      ensures filterValues == map[] && this.source == source
      ensures this.enabled == enabled && this.hidden == hidden && this.parent == parent
    {
      columns := if gridColumns.Some? then gridColumns.value else [];
      filterValues := map[];
      this.source := source;
      this.enabled := enabled;
      this.hidden := hidden;
      this.parent := parent;
    }

    /** The column constructor: one free grid column per external column, of type
        `System.Type` and holding that column's declared value type. A null list gives
        no columns (see `RecordGrids.EnumerateColumns`). */
    constructor FromColumns(columns: Option<seq<Column>>, source: GridSource,
                            enabled: bool, hidden: bool, parent: object?)
      ensures var cs := RecordGrids.EnumerateColumns(columns);
              |this.columns| == |cs| &&
              forall i :: 0 <= i < |cs| ==>
                this.columns[i] == NewUnbound(SystemType, TypeObject(cs[i].valueType), cs[i].title,
                                              enabled, hidden, this, DefaultCallback)
      ensures filterValues == map[] && this.source == source
      ensures this.enabled == enabled && this.hidden == hidden && this.parent == parent
    {
      this.columns := [];
      filterValues := map[];
      this.source := source;
      this.enabled := enabled;
      this.hidden := hidden;
      this.parent := parent;
      new;
      var cs := RecordGrids.EnumerateColumns(columns);
      var i := 0;
      while i < |cs|
        invariant 0 <= i <= |cs|
        invariant |this.columns| == i
        invariant forall j :: 0 <= j < i ==>
                    this.columns[j] == NewUnbound(SystemType, TypeObject(cs[j].valueType), cs[j].title,
                                                  enabled, hidden, this, DefaultCallback)
        invariant this.enabled == enabled && this.hidden == hidden && this.parent == parent
        invariant filterValues == map[] && this.source == source
      {
        AddGridColumn(SystemType, cs[i].title, TypeObject(cs[i].valueType));
        i := i + 1;
      }
    }

    /** `AddGridColumn(title, value)`: appends a free column of type `t`, owned by this
        grid and taking its current enabled and hidden flags. */
    method AddGridColumn(t: TypeId, title: string, value: Value)
      modifies this`columns
      ensures columns == old(columns) + [NewUnbound(t, value, title, enabled, hidden, this, DefaultCallback)]
    {
      columns := columns + [NewUnbound(t, value, title, enabled, hidden, this, DefaultCallback)];
    }

    /** `AddGridColumn(column, defaultValue)`: appends a column bound to `column` when the
        column is accepted; a rejected column throws and leaves the columns as they were. */
    method AddBoundGridColumn(t: TypeId, column: Column, defaultValue: Value) returns (r: Result<GridColumn>)
      modifies this`columns
      ensures r == NewBound(column, defaultValue, t, enabled, hidden, this, DefaultCallback)
      ensures columns == if r.Ok? then old(columns) + [r.value] else old(columns)
    {
      r := NewBound(column, defaultValue, t, enabled, hidden, this, DefaultCallback);
      if r.Ok? {
        columns := columns + [r.value];
      }
    }

    /** `GetFilterValue(key)`. */
    function FilterValue(key: string): (v: Value)
      reads this
      ensures key in filterValues ==> v == filterValues[key]
      ensures key !in filterValues ==> v.Null?
    {
      GridBase.GetFilterValue(filterValues, key)
    }

    /** Renders the grid of either kind. Neither kind consults `columns`. */
    function Render(focus: object): Descriptor
      reads this
    {
      match source
      case GenericSource(records) => GenericGrids.Render(records, filterValues)
      case RecordSource(data) => RecordGrids.Render(data, filterValues)
    }

    /** The generic-grid constructor: the grid columns are passed to the base, then the
        data is cast to dictionary rows, which throws on the first item that cannot be. */
    static method NewGeneric(data: seq<Value>, enabled: bool, hidden: bool, gridColumns: Option<seq<GridColumn>>,
                             parent: object?)
      returns (r: Result<Grid>)
      ensures GenericGrids.CastRecords(data).Err? ==> r == Err(GenericGrids.CastRecords(data).error)
      ensures GenericGrids.CastRecords(data).Ok? ==>
                r.Ok? && fresh(r.value) &&
                r.value.source == GenericSource(GenericGrids.CastRecords(data).value) &&
                r.value.columns == (if gridColumns.Some? then gridColumns.value else []) &&
                r.value.filterValues == map[] &&
                r.value.enabled == enabled && r.value.hidden == hidden && r.value.parent == parent
    {
      var records := GenericGrids.CastRecords(data);
      if records.Err? {
        return Err(records.error);
      }
      var g := new Grid.FromGridColumns(gridColumns, GenericSource(records.value), enabled, hidden, parent);
      r := Ok(g);
    }
  }
}
