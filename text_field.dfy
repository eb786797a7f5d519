/** TextField.cs: a single-line text input. */
module TextFields {
  import opened Values
  import opened Parameters

  class TextField {
    var enabled: bool
    var hidden: bool
    var parent: object?
    const binding: Binding
    const parameters: TextParameters

    /** The initial value is the given text; there is no change callback. Takes the
        supplied parameters object, or a fresh one, and writes nothing into it. */
    constructor (defaultValue: string, parameters: TextParameters?, column: Option<Column>,
                 enabled: bool, hidden: bool, parent: object?, defaults: Attrs)
      ensures binding == Binding(Str(defaultValue), column, DefaultCallback)
      ensures parameters != null ==> this.parameters == parameters
      ensures parameters == null ==> fresh(this.parameters) && this.parameters.props == defaults
      ensures this.enabled == enabled && this.hidden == hidden && this.parent == parent
    {
      binding := Binding(Str(defaultValue), column, DefaultCallback);
      var p: TextParameters;
      if parameters != null {
        p := parameters;
      } else {
        p := new TextParameters(defaults);
      }
      this.parameters := p;
      this.enabled := enabled;
      this.hidden := hidden;
      this.parent := parent;
    }

    /** The text field component, with exactly the projection of the parameters:
        the bound value is not among the attributes. */
    function Render(host: Host, focus: object): (d: Descriptor)
      reads this, parameters
      ensures d.kind == TextFieldComponent
      ensures d.attrs == host.extractParameters(parameters.props)
    {
      Descriptor(TextFieldComponent, host.extractParameters(parameters.props))
    }
  }

  /** Two text fields configured by the same parameters object render alike, whatever
      their values: the value never reaches the renderer. */
  lemma ValueNotRendered(host: Host, a: TextField, b: TextField)
    requires a.parameters == b.parameters
    ensures a.Render(host, a) == b.Render(host, b)
  {
  }
}
