/** DialogBox.cs: a titled dialog that may own children. */
module Dialogs {
  import opened Values
  import opened Parameters

  class DialogBox {
    var enabled: bool
    var hidden: bool
    var parent: object?
    /** `ChildComponents`; children are added through `AddChild`, which is not part of this model. */
    var children: seq<object>
    const parameters: DialogParameters

    /** Takes the supplied parameters object, or a fresh one, and writes `Title` into it.
        The `content` paragraphs are accepted and dropped. */
    constructor (title: string, content: Option<seq<string>>, parameters: DialogParameters?,
                 enabled: bool, hidden: bool, parent: object?, defaults: Attrs)
      modifies parameters
      ensures parameters != null ==> this.parameters == parameters
      ensures parameters == null ==> fresh(this.parameters)
      ensures this.parameters.props ==
                (if parameters != null then old(parameters.props) else defaults)["Title" := Str(title)]
      ensures this.enabled == enabled && this.hidden == hidden && this.parent == parent
      ensures children == []
    {
      var p: DialogParameters;
      if parameters != null {
        p := parameters;
      } else {
        p := new DialogParameters(defaults);
      }
      p.props := p.props["Title" := Str(title)];
      this.parameters := p;
      this.enabled := enabled;
      this.hidden := hidden;
      this.parent := parent;
      children := [];
    }

    /** A dialog may own children. */
    function Parentable(): (r: bool)
      ensures r
    {
      true
    }

    /** The dialog component over the projection of the parameters. */
    function Render(host: Host, focus: object): Descriptor
      reads this, parameters
    {
      var projected := host.extractParameters(parameters.props);
      if |children| > 0 then
        Descriptor(DialogComponent, projected["ChildContent" := host.createChildComponents(children, focus)])
      else
        Descriptor(DialogComponent, projected)
    }

    /** The projection of the parameters, with `ChildContent` added (or overwritten)
        only when there is at least one child. */
    lemma RenderedProjection(host: Host, focus: object)
      ensures Render(host, focus).kind == DialogComponent
      ensures children == [] ==> Render(host, focus).attrs == host.extractParameters(parameters.props)
      ensures children != [] ==>
                Render(host, focus).attrs.Keys == host.extractParameters(parameters.props).Keys + {"ChildContent"} &&
                Render(host, focus).attrs["ChildContent"] == host.createChildComponents(children, focus)
      ensures forall k :: k in Render(host, focus).attrs && k != "ChildContent" ==>
                k in host.extractParameters(parameters.props) &&
                Render(host, focus).attrs[k] == host.extractParameters(parameters.props)[k]
    {
    }

    /** When the projection copies the configuration object's properties, a
        rendered dialog carries `ChildContent` exactly when it has children (or
        its configuration object itself has such a property). */
    lemma ChildContentOnlyWithChildren(host: Host, focus: object)
      requires CopiesProperties(host)
      ensures "ChildContent" in Render(host, focus).attrs <==>
                children != [] || "ChildContent" in parameters.props
      ensures "Title" in parameters.props ==>
                Render(host, focus).attrs["Title"] == parameters.props["Title"]
    {
      assert host.extractParameters(parameters.props) == parameters.props;
    }
  }
}
