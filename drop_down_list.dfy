/** GenericDropDownList.cs and RecordDropDownlist.cs: drop-down lists over plain values
    and over records. Both write the selected value and the change callback into their
    parameters object each time they render, then project it. */
module DropDowns {
  import opened Values
  import opened Parameters

  /** `DefaultValue?.ToString()`: the text form of the default value, or null. */
  function SelectedText(host: Host, value: Value): (v: Value)
    ensures value.Null? ==> v.Null?
    ensures !value.Null? ==> v == Str(host.toText(value))
  {
    if value.Null? then Null else Str(host.toText(value))
  }

  /** The parameters after a render's two writes. */
  function WithSelection(host: Host, props: Attrs, binding: Binding): Attrs
  {
    props["SelectedValue" := SelectedText(host, binding.value)]["OnChange" := Event(binding.onChange)]
  }

  /** A render writes `SelectedValue` (the text of the bound value) and `OnChange`
      (the bound callback), adding them if absent, and keeps every other property. */
  lemma SelectionWritten(host: Host, props: Attrs, binding: Binding)
    ensures var p := WithSelection(host, props, binding);
            p.Keys == props.Keys + {"SelectedValue", "OnChange"} &&
            p["SelectedValue"] == SelectedText(host, binding.value) &&
            p["OnChange"] == Event(binding.onChange) &&
            p - {"SelectedValue", "OnChange"} == props - {"SelectedValue", "OnChange"}
  {
    var p := WithSelection(host, props, binding);
    assert p - {"SelectedValue", "OnChange"} == props - {"SelectedValue", "OnChange"};
  }

  /** Two property bags that differ at most in `SelectedValue` and `OnChange`. */
  predicate SameButSelection(p: Attrs, q: Attrs)
  {
    p - {"SelectedValue", "OnChange"} == q - {"SelectedValue", "OnChange"}
  }

  /** The render's writes overwrite whatever selection was there before, so bags that
      differ only there become equal. */
  lemma SelectionOverwrites(host: Host, p: Attrs, q: Attrs, binding: Binding)
    requires SameButSelection(p, q)
    ensures WithSelection(host, p, binding) == WithSelection(host, q, binding)
  {
    var a, b := WithSelection(host, p, binding), WithSelection(host, q, binding);
    SelectionWritten(host, p, binding);
    SelectionWritten(host, q, binding);
    forall k | k in a
      ensures k in b && a[k] == b[k]
    {
      if k != "SelectedValue" && k != "OnChange" {
        assert k in p - {"SelectedValue", "OnChange"};
      }
    }
    forall k | k in b
      ensures k in a
    {
      if k != "SelectedValue" && k != "OnChange" {
        assert k in q - {"SelectedValue", "OnChange"};
      }
    }
  }

  /** Rendering twice gives the same parameters and so the same attribute map. */
  lemma RenderTwice(host: Host, props: Attrs, binding: Binding)
    ensures WithSelection(host, WithSelection(host, props, binding), binding) == WithSelection(host, props, binding)
    ensures SameButSelection(props, WithSelection(host, props, binding))
  {
    SelectionOverwrites(host, WithSelection(host, props, binding), props, binding);
  }

  /** A render's writes replace those of any earlier render, whatever that render's
      binding was. */
  lemma SelectionRewritten(host: Host, props: Attrs, earlier: Binding, binding: Binding)
    ensures WithSelection(host, WithSelection(host, props, earlier), binding) == WithSelection(host, props, binding)
  {
    SelectionOverwrites(host, WithSelection(host, props, earlier), props, binding);
  }

  class GenericDropDownList {
    var enabled: bool
    var hidden: bool
    var parent: object?
    const binding: Binding
    const parameters: DropDownParameters

    /** Takes the supplied parameters object, or a fresh one, and stores the candidate
        list as its `Items`. The default value is not checked against the list. */
    constructor (defaultValue: Value, values: seq<Value>, parameters: DropDownParameters?,
                 onChange: Callback, column: Option<Column>, enabled: bool, hidden: bool,
                 parent: object?, defaults: Attrs)
      modifies parameters
      ensures parameters != null ==> this.parameters == parameters
      ensures parameters == null ==> fresh(this.parameters)
      ensures this.parameters.props ==
                (if parameters != null then old(parameters.props) else defaults)["Items" := List(values)]
      ensures binding == Binding(defaultValue, column, onChange)
      ensures this.enabled == enabled && this.hidden == hidden && this.parent == parent
    {
      var p: DropDownParameters;
      if parameters != null {
        p := parameters;
      } else {
        p := new DropDownParameters(defaults);
      }
      p.props := p.props["Items" := List(values)];
      this.parameters := p;
      binding := Binding(defaultValue, column, onChange);
      this.enabled := enabled;
      this.hidden := hidden;
      this.parent := parent;
    }

    /** What a render produces from the current state. */
    function Rendered(host: Host): (d: Descriptor)
      reads parameters
      ensures d.kind == DropDownListComponent
      ensures d.attrs == host.extractParameters(WithSelection(host, parameters.props, binding))
    {
      Descriptor(DropDownListComponent, host.extractParameters(WithSelection(host, parameters.props, binding)))
    }

    method Render(host: Host, focus: object) returns (d: Descriptor)
      modifies parameters
      ensures parameters.props == WithSelection(host, old(parameters.props), binding)
      ensures d == old(Rendered(host))
      ensures d.attrs == host.extractParameters(parameters.props)
    {
      parameters.props := parameters.props["SelectedValue" := SelectedText(host, binding.value)];
      parameters.props := parameters.props["OnChange" := Event(binding.onChange)];
      d := Descriptor(DropDownListComponent, host.extractParameters(parameters.props));
    }
  }

  class RecordDropDownList {
    var enabled: bool
    var hidden: bool
    var parent: object?
    const binding: Binding
    const parameters: DropDownParameters

    /** Takes the supplied parameters object, or a fresh one, and leaves it alone: the
        record list is not stored, so `Items` is whatever the parameters already held. */
    constructor (defaultValue: Value, values: Value, parameters: DropDownParameters?,
                 onChange: Callback, column: Option<Column>, enabled: bool, hidden: bool,
                 parent: object?, defaults: Attrs)
      ensures parameters != null ==> this.parameters == parameters
      ensures parameters == null ==> fresh(this.parameters)
      ensures this.parameters.props == if parameters != null then parameters.props else defaults
      ensures binding == Binding(defaultValue, column, onChange)
      ensures this.enabled == enabled && this.hidden == hidden && this.parent == parent
    {
      var p: DropDownParameters;
      if parameters != null {
        p := parameters;
      } else {
        p := new DropDownParameters(defaults);
      }
      this.parameters := p;
      binding := Binding(defaultValue, column, onChange);
      this.enabled := enabled;
      this.hidden := hidden;
      this.parent := parent;
    }

    /** What a render produces from the current state. */
    function Rendered(host: Host): (d: Descriptor)
      reads parameters
      ensures d.kind == DropDownListComponent
      ensures d.attrs == host.extractParameters(WithSelection(host, parameters.props, binding))
    {
      Descriptor(DropDownListComponent, host.extractParameters(WithSelection(host, parameters.props, binding)))
    }

    method Render(host: Host, focus: object) returns (d: Descriptor)
      modifies parameters
      ensures parameters.props == WithSelection(host, old(parameters.props), binding)
      ensures d == old(Rendered(host))
      ensures d.attrs == host.extractParameters(parameters.props)
    {
      parameters.props := parameters.props["SelectedValue" := SelectedText(host, binding.value)];
      parameters.props := parameters.props["OnChange" := Event(binding.onChange)];
      d := Descriptor(DropDownListComponent, host.extractParameters(parameters.props));
    }
  }
}
