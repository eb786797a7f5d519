/** Stack.cs: a container that lays its children out vertically. */
module Stacks {
  import opened Values

  class Stack {
    var enabled: bool
    var hidden: bool
    var parent: object?
    /** `ChildComponents`; children are added through `AddChild`, which is not part of this model. */
    var children: seq<object>

    constructor (enabled: bool, hidden: bool, parent: object?)
      ensures this.enabled == enabled && this.hidden == hidden && this.parent == parent
      ensures children == []
    {
      this.enabled := enabled;
      this.hidden := hidden;
      this.parent := parent;
      children := [];
    }

    /** A stack may own children. */
    function Parentable(): (r: bool)
      ensures r
    {
      true
    }

    /** The stack component with its children's content. */
    function Render(host: Host, focus: object): Descriptor
      reads this
    {
      var childContent := if |children| > 0 then host.createChildComponents(children, focus) else Null;
      Descriptor(StackComponent, map["ChildContent" := childContent])
    }

    /** The stack renders one attribute and nothing from any configuration object:
        `ChildContent`, which holds the children's content rendered with the same
        focus, or null when there are no children. */
    lemma RenderedChildren(host: Host, focus: object)
      ensures Render(host, focus).kind == StackComponent
      ensures Render(host, focus).attrs.Keys == {"ChildContent"}
      ensures children == [] ==> Render(host, focus).attrs["ChildContent"].Null?
      ensures children != [] ==>
                Render(host, focus).attrs["ChildContent"] == host.createChildComponents(children, focus)
    {
    }
  }
}
