/** Tab.cs: a tab control built from `(Header, Content)` pairs. */
module Tabs {
  import opened Values
  import opened Parameters

  /** One `TabsItem` component: its index, its header text and its body content. */
  function TabsItem(index: nat, item: TabItem): Descriptor
  {
    Descriptor(TabsItemComponent,
      map["Index" := Int(index), "Text" := Str(item.header), "ChildContent" := Text(item.content)])
  }

  /** The tab items of `items`, numbered from `index` on, as the loop in `GetTabsList`
      numbers them with its running `tabIndex`. */
  function TabsFrom(items: seq<TabItem>, index: nat): (tabs: seq<Descriptor>)
    ensures |tabs| == |items|
    ensures forall i :: 0 <= i < |items| ==> tabs[i] == TabsItem(index + i, items[i])
    decreases |items|
  {
    if items == [] then []
    else [TabsItem(index, items[0])] + TabsFrom(items[1..], index + 1)
  }

  /** `GetTabsList`: one tab item per pair, in order, numbered from 0. */
  function GetTabsList(items: seq<TabItem>): (tabs: seq<Descriptor>)
  {
    TabsFrom(items, 0)
  }

  /** The i-th tab item has index i, its own header as text, and its content as body,
      unchanged; there is exactly one per pair and none for an empty list. */
  lemma TabsListShape(items: seq<TabItem>, i: nat)
    requires i < |items|
    ensures |GetTabsList(items)| == |items|
    ensures GetTabsList(items)[i].kind == TabsItemComponent
    ensures GetTabsList(items)[i].attrs["Index"] == Int(i)
    ensures GetTabsList(items)[i].attrs["Text"] == Str(items[i].header)
    ensures GetTabsList(items)[i].attrs["ChildContent"] == Text(items[i].content)
  {
  }

  /** Two pairs give two tab items, indexed 0 and 1 in that order. */
  lemma TwoTabs()
    ensures GetTabsList([TabItem("Overview", "text A"), TabItem("Details", "text B")]) ==
              [TabsItem(0, TabItem("Overview", "text A")), TabsItem(1, TabItem("Details", "text B"))]
  {
    var items := [TabItem("Overview", "text A"), TabItem("Details", "text B")];
    assert GetTabsList(items)[0] == TabsItem(0, items[0]);
    assert GetTabsList(items)[1] == TabsItem(1, items[1]);
  }

  class Tab {
    var enabled: bool
    var hidden: bool
    var parent: object?
    const parameters: TabParameters

    /** Takes the supplied parameters object, or a fresh one, and stores `items` as its `TabItems`. */
    constructor (items: seq<TabItem>, parameters: TabParameters?, enabled: bool, hidden: bool,
                 parent: object?, defaults: Attrs)
      modifies parameters
      ensures parameters != null ==> this.parameters == parameters
      ensures parameters == null ==> fresh(this.parameters)
      ensures this.parameters.tabItems == items
      ensures this.parameters.props == if parameters != null then old(parameters.props) else defaults
      ensures this.enabled == enabled && this.hidden == hidden && this.parent == parent
    {
      var p: TabParameters;
      if parameters != null {
        p := parameters;
      } else {
        p := new TabParameters(defaults);
      }
      p.tabItems := items;
      this.parameters := p;
      this.enabled := enabled;
      this.hidden := hidden;
      this.parent := parent;
    }

    /** The tabs component over the projection of the parameters and the tab list. */
    function Render(host: Host, focus: object): Descriptor
      reads this, parameters
    {
      var tabChildContent := Fragment(GetTabsList(parameters.tabItems));
      var projected := host.extractParameters(parameters.Properties());
      Descriptor(TabsComponent, projected["TabsList" := tabChildContent])
    }

    /** The projection of the parameters with `TabsList` set to the tab list of the
        current `TabItems`, overwriting any projected value; all other keys are kept. */
    lemma RenderedTabs(host: Host, focus: object)
      ensures Render(host, focus).kind == TabsComponent
      ensures Render(host, focus).attrs.Keys ==
                host.extractParameters(parameters.Properties()).Keys + {"TabsList"}
      ensures Render(host, focus).attrs["TabsList"] == Fragment(GetTabsList(parameters.tabItems))
      ensures forall k :: k in Render(host, focus).attrs && k != "TabsList" ==>
                Render(host, focus).attrs[k] == host.extractParameters(parameters.Properties())[k]
    {
    }
  }
}
