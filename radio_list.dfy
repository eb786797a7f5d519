/** Radiolist.cs: a radio button list that selects one value out of a candidate list. */
module RadioLists {
  import opened Values
  import opened Parameters

  /** `List<T>.IndexOf`: the first position holding `x`, or -1 when there is none. */
  function IndexOf(xs: seq<Value>, x: Value): (r: int)
    ensures -1 <= r < |xs|
    ensures r == -1 <==> x !in xs
    ensures 0 <= r ==> xs[r] == x && forall j :: 0 <= j < r ==> xs[j] != x
  {
    if xs == [] then -1
    else if xs[0] == x then 0
    else
      var k := IndexOf(xs[1..], x);
      if k == -1 then -1 else k + 1
  }

  /** The configuration object after the constructor's two writes: the candidate list
      under `Values`, the position of the default value under `Selected`. */
  function WithValues(props: Attrs, values: seq<Value>, defaultValue: Value): (p: Attrs)
    ensures p.Keys == props.Keys + {"Values", "Selected"}
    ensures p["Values"] == List(values) && p["Selected"] == Int(IndexOf(values, defaultValue))
    ensures forall k :: k in props && k != "Values" && k != "Selected" ==> p[k] == props[k]
  {
    props["Values" := List(values)]["Selected" := Int(IndexOf(values, defaultValue))]
  }

  class RadioList {
    var enabled: bool
    var hidden: bool
    var parent: object?
    const binding: Binding
    const parameters: RadioParameters

    constructor Init(parameters: RadioParameters, binding: Binding, enabled: bool, hidden: bool, parent: object?)
      ensures this.parameters == parameters && this.binding == binding
      ensures this.enabled == enabled && this.hidden == hidden && this.parent == parent
    {
      this.parameters := parameters;
      this.binding := binding;
      this.enabled := enabled;
      this.hidden := hidden;
      this.parent := parent;
    }

    /** The constructor. It takes the supplied parameters object or a fresh one. A null
        candidate list throws `ArgumentNullException` before anything is written. Otherwise
        `Values` and `Selected` are written first, so the parameters object keeps them
        even when the check that follows throws `ArgumentException` (carrying the default
        value and the list) because the default value is not a candidate. */
    static method New(values: Option<seq<Value>>, defaultValue: Value, parameters: RadioParameters?,
                      onChange: Callback, column: Option<Column>, enabled: bool, hidden: bool,
                      parent: object?, defaults: Attrs)
      returns (r: Result<RadioList>)
      modifies parameters
      ensures values.None? ==> r == Err(ArgumentNull("values"))
      ensures values.None? && parameters != null ==> parameters.props == old(parameters.props)
      ensures values.Some? && parameters != null ==>
                parameters.props == WithValues(old(parameters.props), values.value, defaultValue)
      ensures values.Some? && defaultValue !in values.value ==>
                r == Err(InvalidSelection(defaultValue, values.value))
      ensures values.Some? && defaultValue in values.value ==>
                r.Ok? && fresh(r.value) &&
                (parameters != null ==> r.value.parameters == parameters) &&
                (parameters == null ==>
                   fresh(r.value.parameters) &&
                   r.value.parameters.props == WithValues(defaults, values.value, defaultValue)) &&
                r.value.binding == Binding(defaultValue, column, onChange) &&
                r.value.enabled == enabled && r.value.hidden == hidden && r.value.parent == parent
    {
      var p: RadioParameters;
      if parameters != null {
        p := parameters;
      } else {
        p := new RadioParameters(defaults);
      }
      if values.None? {
        return Err(ArgumentNull("values"));
      }
      p.props := p.props["Values" := List(values.value)];
      var selected := IndexOf(values.value, defaultValue);
      p.props := p.props["Selected" := Int(selected)];
      if selected == -1 {
        return Err(InvalidSelection(defaultValue, values.value));
      }
      var radio := new RadioList.Init(p, Binding(defaultValue, column, onChange), enabled, hidden, parent);
      return Ok(radio);
    }

    /** The radio component, with exactly the projection of the parameters. */
    function Render(host: Host, focus: object): (d: Descriptor)
      reads this, parameters
      ensures d.kind == RadioComponent
      ensures d.attrs == host.extractParameters(parameters.props)
    {
      Descriptor(RadioComponent, host.extractParameters(parameters.props))
    }
  }

  /** A successful construction selects the first occurrence of the default value:
      the candidate at `Selected` is the default value, and no earlier candidate is. */
  lemma SelectedIsDefault(props: Attrs, values: seq<Value>, defaultValue: Value)
    requires defaultValue in values
    ensures WithValues(props, values, defaultValue)["Selected"].Int?
    ensures var k := WithValues(props, values, defaultValue)["Selected"].i;
              0 <= k < |values| && values[k] == defaultValue &&
              forall j :: 0 <= j < k ==> values[j] != defaultValue
  {
  }

  /** When the projection copies properties, the rendered radio list carries the
      candidate list and the index of the default value. */
  lemma RenderedSelection(host: Host, props: Attrs, values: seq<Value>, defaultValue: Value)
    requires CopiesProperties(host)
    requires defaultValue in values
    ensures var attrs := host.extractParameters(WithValues(props, values, defaultValue));
              attrs["Values"] == List(values) &&
              attrs["Selected"].Int? && 0 <= attrs["Selected"].i < |values| &&
              values[attrs["Selected"].i] == defaultValue
  {
    assert host.extractParameters(WithValues(props, values, defaultValue)) == WithValues(props, values, defaultValue);
  }
}
