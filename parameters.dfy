/** The configuration objects of the widget families. Each is a flat bag of named
    properties; the widgets keep a reference to the object they were given, so a
    property written by a widget is seen by everyone holding that object. The
    initial properties of a fresh object (`new XParameters()`) are not visible and
    are a constructor argument. */
module Parameters {
  import opened Values

  class RadioParameters {
    var props: Attrs

    constructor (defaults: Attrs)
      ensures props == defaults
    {
      props := defaults;
    }
  }

  class DropDownParameters {
    var props: Attrs

    constructor (defaults: Attrs)
      ensures props == defaults
    {
      props := defaults;
    }
  }

  class DialogParameters {
    var props: Attrs

    constructor (defaults: Attrs)
      ensures props == defaults
    {
      props := defaults;
    }
  }

  class TextParameters {
    var props: Attrs

    constructor (defaults: Attrs)
      ensures props == defaults
    {
      props := defaults;
    }
  }

  /** Tab parameters: `TabItems` is kept typed because the tab reads it back when
      it renders; every other property lives in `props`. */
  class TabParameters {
    var tabItems: seq<TabItem>
    var props: Attrs

    constructor (defaults: Attrs)
      ensures props == defaults && tabItems == []
    {
      props := defaults;
      tabItems := [];
    }

    /** All properties, as `ExtractParameters` sees them. */
    function Properties(): (all: Attrs)
      reads this
      ensures all.Keys == props.Keys + {"TabItems"}
      ensures all["TabItems"] == TabItems(tabItems)
    {
      props["TabItems" := TabItems(tabItems)]
    }
  }
}
