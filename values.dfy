/** Values shared by every widget: the weakly typed attribute values handed to the
    renderer, the render descriptor, the external data model (columns, records),
    the exceptions the widgets throw, and the host collaborators this model does
    not see into. */
module Values {

  datatype Option<T> = None | Some(value: T)

  /** A runtime type, named as C# names it. */
  datatype TypeId = TypeId(name: string)

  const ObjectType: TypeId := TypeId("object")
  const SystemType: TypeId := TypeId("System.Type")
  const BoolType: TypeId := TypeId("bool")
  const IntType: TypeId := TypeId("int")
  const StringType: TypeId := TypeId("string")
  const DictionaryType: TypeId := TypeId("Dictionary<string, object>")
  const RecordType: TypeId := TypeId("IRecord")

  /** An `EventCallback`: the `default` one, or a handler supplied by the caller. */
  datatype Callback = DefaultCallback | Handler(id: nat)

  /** A `(Header, Content)` pair given to a tab control. */
  datatype TabItem = TabItem(header: string, content: string)

  /** An external column descriptor (`IColumn`): its title, declared value type,
      current value (`GetValue()`) and source expression (`Sql`). */
  datatype Column = Column(title: string, valueType: TypeId, value: Value, sql: string)

  /** An external record (`IRecord`), seen through `Columns.Values` in enumeration order. */
  datatype Record = Record(columns: seq<Column>)

  /** A `Dictionary<string, object>` row: its keys in enumeration order and its entries. */
  datatype Row = Row(keys: seq<string>, cells: map<string, Value>)

  /** The host component a descriptor asks the renderer for (`GuiComponentType`). */
  datatype Kind =
    | StackComponent
    | DialogComponent
    | TabsComponent
    | TabsItemComponent
    | RadioComponent
    | DropDownListComponent
    | TextFieldComponent
    | DataGridComponent(rowType: TypeId)
    | DataGridColumnComponent(rowType: TypeId)

  /** What a widget's render produces: the host component and its attributes. */
  datatype Descriptor = Descriptor(kind: Kind, attrs: map<string, Value>)

  /** An attribute value, or any object a widget stores or passes on. */
  datatype Value =
    | Null
    | Bool(b: bool)
    | Int(i: int)
    | Str(s: string)
    | TypeObject(t: TypeId)               // a `System.Type` instance
    | Opaque(ty: TypeId, id: nat)         // any other host object
    | Enum(enumType: string, member: string)
    | List(items: seq<Value>)
    | IntArray(ints: seq<int>)
    | Dictionary(row: Row)
    | Rows(rows: seq<Option<Row>>)        // a list of dictionaries, null entries as None
    | Records(records: seq<Option<Record>>)  // a list of records, null entries as None
    | TabItems(tabItems: seq<TabItem>)
    | Event(callback: Callback)
    | CellTemplate(key: string)           // a per-row cell fragment looking up `key`
    | Text(text: string)                  // a fragment that emits `text`
    | Fragment(components: seq<Descriptor>)
    | Throwing(error: Error)              // a fragment that throws `error` when the renderer runs it

  type Attrs = map<string, Value>

  /** The exceptions the modelled code throws. */
  datatype Error =
    | ArgumentNull(paramName: string)
    | InvalidSelection(defaultValue: Value, valueList: seq<Value>)
    | ColumnTypeMismatch(column: string, dataType: TypeId)
    | InvalidCast(value: Value, target: TypeId)
    | NullReference
    | NotImplemented

  datatype Result<T> = Ok(value: T) | Err(error: Error)

  /** The arguments a bindable widget hands to its `BindableComponent<T>` base:
      initial value, bound column and change callback. */
  datatype Binding = Binding(value: Value, column: Option<Column>, onChange: Callback)

  /** Collaborators whose code is not part of this model, as uninterpreted functions:
      `ExtractParameters`, `CreateChildComponents`, the render of the widgets outside
      the model, `ToString()`, the `IDisposable` test and `Environment.NewLine`. */
  datatype Host = Host(
    extractParameters: Attrs -> Attrs,
    createChildComponents: (seq<object>, object) -> Value,
    renderWidget: (object, object) -> Result<Descriptor>,
    toText: Value -> string,
    isDisposable: object -> bool,
    newLine: string)

  /** The reading of `ExtractParameters` that copies every property of the
      configuration object under its own name, unchanged. */
  ghost predicate CopiesProperties(host: Host)
  {
    forall props: Attrs :: host.extractParameters(props) == props
  }

  /** The runtime type of a non-null value. */
  function RuntimeType(v: Value): TypeId
    requires !v.Null?
  {
    match v
    case Bool(_) => BoolType
    case Int(_) => IntType
    case Str(_) => StringType
    case TypeObject(_) => SystemType
    case Opaque(ty, _) => ty
    case Enum(e, _) => TypeId(e)
    case List(_) => TypeId("List<T>")
    case IntArray(_) => TypeId("int[]")
    case Dictionary(_) => DictionaryType
    case Rows(_) => TypeId("List<Dictionary<string, object>>")
    case Records(_) => TypeId("IEnumerable<IRecord>")
    case TabItems(_) => TypeId("IEnumerable<(string, string)>")
    case Event(_) => TypeId("EventCallback")
    case CellTemplate(_) => TypeId("RenderFragment<Dictionary<string, object>>")
    case Text(_) => TypeId("RenderFragment")
    case Fragment(_) => TypeId("RenderFragment")
    case Throwing(_) => TypeId("RenderFragment")
  }

  /** C#'s `v is T`: false for null; true when T is `object` or the value's own type. */
  predicate IsInstance(v: Value, t: TypeId)
  {
    !v.Null? && (t == ObjectType || RuntimeType(v) == t)
  }

  /** The value types among the modelled types: a null reference cannot be unboxed to them. */
  predicate IsValueType(t: TypeId)
  {
    t == IntType || t == BoolType
  }

  /** C#'s `(T)v`: instances of T pass; null passes to a reference type and throws
      `NullReferenceException` when unboxed to a value type; anything else throws
      `InvalidCastException`. */
  function Cast(v: Value, t: TypeId): (r: Result<Value>)
    ensures r.Ok? <==> (v.Null? && !IsValueType(t)) || IsInstance(v, t)
    ensures r.Ok? ==> r.value == v
    ensures v.Null? && IsValueType(t) ==> r == Err(NullReference)
    ensures !v.Null? && !IsInstance(v, t) ==> r == Err(InvalidCast(v, t))
  {
    if v.Null? then
      if IsValueType(t) then Err(NullReference) else Ok(v)
    else if IsInstance(v, t) then Ok(v)
    else Err(InvalidCast(v, t))
  }
}
