/** GridColumn.cs: one column of a data grid, of value type `dataType`, either bound to
    an external column or holding a free value. */
module GridColumns {
  import opened Values

  /** A grid column. `binding` holds what the column hands to its bindable base:
      the initial value, the bound column (none for a free column) and the change
      callback. */
  datatype GridColumn = GridColumn(dataType: TypeId, binding: Binding, enabled: bool, hidden: bool, parent: object)

  /** The free-value constructor: the title is accepted and not kept. */
  function NewUnbound(t: TypeId, value: Value, title: string, enabled: bool, hidden: bool,
                      parent: object, onChange: Callback): (c: GridColumn)
    ensures c.dataType == t && c.binding == Binding(value, None, onChange)
    ensures c.enabled == enabled && c.hidden == hidden && c.parent == parent
  {
    GridColumn(t, Binding(value, None, onChange), enabled, hidden, parent)
  }

  /** The bound constructor as written: the column's current value is cast to the
      column type first (a null value of a value-typed column throws there), then the declared value type is checked with `is not T`,
      which asks whether the runtime `Type` object itself is a `T`. The default
      value is never used. */
  function NewBoundAsWritten(column: Column, defaultValue: Value, t: TypeId, enabled: bool, hidden: bool,
                             parent: object, onChange: Callback): (r: Result<GridColumn>)
    ensures Cast(column.value, t).Err? ==> r == Err(Cast(column.value, t).error)
    ensures Cast(column.value, t).Ok? && !IsInstance(TypeObject(column.valueType), t) ==>
              r == Err(ColumnTypeMismatch(column.sql, t))
    ensures r.Ok? <==> Cast(column.value, t).Ok? && (t == ObjectType || t == SystemType)
    ensures r.Ok? ==> r.value == GridColumn(t, Binding(column.value, Some(column), onChange), enabled, hidden, parent)
  {
    match Cast(column.value, t)
    case Err(e) => Err(e)
    case Ok(v) =>
      if !IsInstance(TypeObject(column.valueType), t) then Err(ColumnTypeMismatch(column.sql, t))
      else Ok(GridColumn(t, Binding(v, Some(column), onChange), enabled, hidden, parent))
  }

  /** The bound constructor as intended: the column is accepted exactly when its value
      casts to the column type and its declared value type is that type. */
  function NewBound(column: Column, defaultValue: Value, t: TypeId, enabled: bool, hidden: bool,
                    parent: object, onChange: Callback): (r: Result<GridColumn>)
    ensures Cast(column.value, t).Err? ==> r == Err(Cast(column.value, t).error)
    ensures Cast(column.value, t).Ok? && column.valueType != t ==> r == Err(ColumnTypeMismatch(column.sql, t))
    ensures r.Ok? <==> Cast(column.value, t).Ok? && column.valueType == t
    ensures r.Ok? ==> r.value.dataType == t && r.value.binding == Binding(column.value, Some(column), onChange)
    ensures r.Ok? ==> r.value.enabled == enabled && r.value.hidden == hidden && r.value.parent == parent
  {
    match Cast(column.value, t)
    case Err(e) => Err(e)
    case Ok(v) =>
      if column.valueType != t then Err(ColumnTypeMismatch(column.sql, t))
      else Ok(GridColumn(t, Binding(v, Some(column), onChange), enabled, hidden, parent))
  }

  /** Rendering a grid column always throws `NotImplementedException`. */
  function Render(c: GridColumn, focus: object): (r: Result<Descriptor>)
    ensures r == Err(NotImplemented)
  {
    Err(NotImplemented)
  }

  /** For every column type other than `object` and `System.Type`, the constructor as
      written rejects a column whose declared type and current value both match,
      while the intended one accepts it. */
  lemma BoundTypeCheckRejectsMatches(column: Column, defaultValue: Value, t: TypeId, enabled: bool, hidden: bool,
                                     parent: object, onChange: Callback)
    requires t != ObjectType && t != SystemType
    requires column.valueType == t && IsInstance(column.value, t)
    ensures NewBoundAsWritten(column, defaultValue, t, enabled, hidden, parent, onChange) ==
              Err(ColumnTypeMismatch(column.sql, t))
    ensures NewBound(column, defaultValue, t, enabled, hidden, parent, onChange).Ok?
  {
  }

  /** A concrete instance: an `int` column holding 30 is refused as an `int` grid column. */
  lemma IntColumnRefused(parent: object)
    ensures var age := Column("Age", IntType, Int(30), "t.age");
            NewBoundAsWritten(age, Int(0), IntType, true, false, parent, DefaultCallback) ==
              Err(ColumnTypeMismatch("t.age", IntType)) &&
            NewBound(age, Int(0), IntType, true, false, parent, DefaultCallback).Ok?
  {
    BoundTypeCheckRejectsMatches(Column("Age", IntType, Int(30), "t.age"), Int(0), IntType, true, false, parent, DefaultCallback);
  }

  /** The intended constructor never accepts a column of another declared type. */
  lemma BoundMatchesDeclaredType(column: Column, defaultValue: Value, t: TypeId, enabled: bool, hidden: bool,
                                 parent: object, onChange: Callback)
    requires NewBound(column, defaultValue, t, enabled, hidden, parent, onChange).Ok?
    ensures column.valueType == t
    ensures column.value.Null? || IsInstance(column.value, t)
    ensures column.value.Null? ==> !IsValueType(t)
  {
  }

  /** An `int` column holding null (an SQL NULL) cannot be bound to an `int` grid
      column: unboxing the null throws before the type check, as written and as
      intended alike. */
  lemma NullIntColumnRefused(parent: object)
    ensures var age := Column("Age", IntType, Null, "t.age");
            NewBoundAsWritten(age, Int(0), IntType, true, false, parent, DefaultCallback) == Err(NullReference) &&
            NewBound(age, Int(0), IntType, true, false, parent, DefaultCallback) == Err(NullReference)
  {
    var age := Column("Age", IntType, Null, "t.age");
    assert Cast(age.value, IntType) == Err(NullReference);
  }
}
