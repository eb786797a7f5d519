/** GuiBuilder.cs: the builder that creates widgets, keeps the ordered list of root
    components, tracks the current and the focused component, and renders the roots
    into one column-flex page. */
module Builder {
  import opened Values
  import opened Parameters
  import opened Stacks
  import opened Dialogs
  import opened Tabs
  import opened RadioLists
  import opened DropDowns
  import opened TextBoxes
  import opened TextFields
  import opened Grids
  import GridColumns
  import GenericGrids

  /** The widgets the builder creates whose classes are not part of this model. */
  datatype WidgetFamily = Button | CheckBox | DatePicker | TimePicker | DateTimePicker | Label

  /** A widget of one of those families; its state and rendering are the host's. */
  class Widget {
    const family: WidgetFamily

    constructor (family: WidgetFamily)
      ensures this.family == family
    {
      this.family := family;
    }
  }

  /** A root component: a reference to one of the widget objects. */
  datatype Node =
    | StackNode(stack: Stack)
    | DialogNode(dialog: DialogBox)
    | TabNode(tab: Tab)
    | RadioNode(radio: RadioList)
    | DropDownNode(dropDown: GenericDropDownList)
    | RecordDropDownNode(recordDropDown: RecordDropDownList)
    | TextBoxNode(textBox: TextBox)
    | TextFieldNode(textField: TextField)
    | GridNode(grid: Grid)
    | WidgetNode(widget: Widget)
  {
    /** The component object itself. */
    function Component(): object
    {
      match this
      case StackNode(s) => s
      case DialogNode(d) => d
      case TabNode(t) => t
      case RadioNode(r) => r
      case DropDownNode(g) => g
      case RecordDropDownNode(g) => g
      case TextBoxNode(t) => t
      case TextFieldNode(t) => t
      case GridNode(g) => g
      case WidgetNode(w) => w
    }

    /** The objects whose state this component's render reads. */
    function Footprint(): set<object>
    {
      match this
      case StackNode(s) => {s}
      case DialogNode(d) => {d, d.parameters}
      case TabNode(t) => {t, t.parameters}
      case RadioNode(r) => {r, r.parameters}
      case DropDownNode(g) => {g.parameters}
      case RecordDropDownNode(g) => {g.parameters}
      case TextBoxNode(_) => {}
      case TextFieldNode(t) => {t, t.parameters}
      case GridNode(g) => {g}
      case WidgetNode(_) => {}
    }

    /** A drop-down list root, whose render writes into its configuration object. */
    predicate IsDropDown()
    {
      DropDownNode? || RecordDropDownNode?
    }

    /** A drop-down list root's configuration object. */
    function Config(): DropDownParameters
      requires IsDropDown()
    {
      if DropDownNode? then dropDown.parameters else recordDropDown.parameters
    }

    /** A drop-down list root's binding, whose value and callback its render writes. */
    function Selection(): Binding
      requires IsDropDown()
    {
      if DropDownNode? then dropDown.binding else recordDropDown.binding
    }

    /** The configuration objects this component's render writes: a drop-down list's. */
    function Configs(): set<DropDownParameters>
    {
      if IsDropDown() then {Config()} else {}
    }
  }

  /** The objects the renders of `roots` read. */
  function Footprints(roots: seq<Node>): set<object>
  {
    set j, o | 0 <= j < |roots| && o in roots[j].Footprint() :: o
  }

  /** The configuration objects the renders of `roots` write. */
  function AllConfigs(roots: seq<Node>): set<DropDownParameters>
  {
    set j, p | 0 <= j < |roots| && p in roots[j].Configs() :: p
  }

  /** What `component.Render(focus: component)` produces for one root; a drop-down list
      is rendered as its render would produce it from the current state. */
  function Rendering(n: Node, host: Host): (r: Result<Descriptor>)
    reads n.Footprint()
  {
    match n
    case StackNode(s) => Ok(s.Render(host, s))
    case DialogNode(d) => Ok(d.Render(host, d))
    case TabNode(t) => Ok(t.Render(host, t))
    case RadioNode(r) => Ok(r.Render(host, r))
    case DropDownNode(g) => Ok(g.Rendered(host))
    case RecordDropDownNode(g) => Ok(g.Rendered(host))
    case TextBoxNode(t) => t.Render(host, t)
    case TextFieldNode(t) => Ok(t.Render(host, t))
    case GridNode(g) => Ok(g.Render(g))
    case WidgetNode(w) => host.renderWidget(w, w)
  }

  /** The renderings of all roots, in order. */
  function RenderAll(roots: seq<Node>, host: Host): (rs: seq<Result<Descriptor>>)
    reads Footprints(roots)
    ensures |rs| == |roots|
    ensures forall j :: 0 <= j < |roots| ==> rs[j] == Rendering(roots[j], host)
  {
    if roots == [] then []
    else
      assert Footprints(roots[1..]) <= Footprints(roots) by {
        forall o | o in Footprints(roots[1..]) ensures o in Footprints(roots) {
          var j :| 0 <= j < |roots[1..]| && o in roots[1..][j].Footprint();
          assert o in roots[j + 1].Footprint();
        }
      }
      [Rendering(roots[0], host)] + RenderAll(roots[1..], host)
  }

  /** The sequence number of the first root's content; 0 and 1 are the page element
      and its style attribute. */
  const FirstSequence: nat := 2

  /** The page's inline style. */
  const PageStyle: string := "display: flex; flex-direction: column; gap: 8px; align-items: flex-start;"

  /** One root's content on the page, with its sequence number. */
  datatype Entry = Entry(sequence: nat, content: Descriptor)

  /** The rendered page: a `div` with the page style holding the entries in order. */
  datatype Page = Page(element: string, style: string, entries: seq<Entry>)

  /** Position `k` holds the first failed rendering. */
  predicate FirstFailure(results: seq<Result<Descriptor>>, k: int)
  {
    0 <= k < |results| && results[k].Err? && forall j :: 0 <= j < k ==> results[j].Ok?
  }

  /** The entries for successive renderings, numbered from `FirstSequence`; the first
      failure stops the whole render with its error. */
  function Collect(results: seq<Result<Descriptor>>): (r: Result<seq<Entry>>)
    ensures r.Ok? <==> forall k :: 0 <= k < |results| ==> results[k].Ok?
    ensures r.Ok? ==>
              |r.value| == |results| &&
              forall k :: 0 <= k < |results| ==> r.value[k] == Entry(FirstSequence + k, results[k].value)
    ensures r.Err? ==> exists k :: FirstFailure(results, k) && r.error == results[k].error
  {
    if results == [] then Ok([])
    else
      var n := |results| - 1;
      var prev := Collect(results[..n]);
      if prev.Err? then
        ghost var k :| FirstFailure(results[..n], k) && prev.error == results[..n][k].error;
        assert FirstFailure(results, k);
        prev
      else if results[n].Err? then
        assert FirstFailure(results, n);
        Err(results[n].error)
      else
        Ok(prev.value + [Entry(FirstSequence + n, results[n].value)])
  }

  /** There is at most one first failure. */
  lemma FirstFailureUnique(results: seq<Result<Descriptor>>, k: int, m: int)
    requires FirstFailure(results, k) && FirstFailure(results, m)
    ensures k == m
  {
  }

  /** Collecting one more successful rendering appends its entry, numbered after the
      ones before it. */
  lemma CollectOneMore(results: seq<Result<Descriptor>>, i: nat)
    requires i < |results| && Collect(results[..i]).Ok? && results[i].Ok?
    ensures Collect(results[..i + 1]) ==
              Ok(Collect(results[..i]).value + [Entry(FirstSequence + i, results[i].value)])
  {
    assert results[..i + 1][..i] == results[..i];
  }

  /** A failed rendering after successful ones is the error of the whole collection,
      whatever follows it. */
  lemma CollectStopsAt(results: seq<Result<Descriptor>>, i: nat)
    requires i < |results| && Collect(results[..i]).Ok? && results[i].Err?
    ensures Collect(results) == Err(results[i].error)
    ensures RenderedCount(results) == i
  {
    assert forall j :: 0 <= j < i ==> results[..i][j].Ok?;
    assert FirstFailure(results, i);
    var k :| FirstFailure(results, k) && Collect(results).error == results[k].error;
    FirstFailureUnique(results, i, k);
  }

  /** Collecting one more rendering: an earlier failure stays the outcome; otherwise a
      failure of the new rendering is, and a success appends its entry, numbered after
      the earlier ones. */
  lemma CollectAppend(results: seq<Result<Descriptor>>, last: Result<Descriptor>)
    ensures var before := Collect(results);
            var after := Collect(results + [last]);
            (before.Err? ==> after == before) &&
            (before.Ok? && last.Err? ==> after == Err(last.error)) &&
            (before.Ok? && last.Ok? ==> after == Ok(before.value + [Entry(FirstSequence + |results|, last.value)]))
  {
    assert (results + [last])[..|results|] == results;
  }

  /** A root appended after the others adds one entry at the end of the page, numbered
      after theirs, and leaves theirs as they were; a failure among the earlier roots
      still decides the outcome. */
  lemma AppendedRootRendersLast(roots: seq<Node>, n: Node, host: Host)
    ensures var before := Collect(RenderAll(roots, host));
            var after := Collect(RenderAll(roots + [n], host));
            (before.Err? ==> after == before) &&
            (before.Ok? && Rendering(n, host).Err? ==> after == Err(Rendering(n, host).error)) &&
            (before.Ok? && Rendering(n, host).Ok? ==>
               after == Ok(before.value + [Entry(FirstSequence + |roots|, Rendering(n, host).value)]))
  {
    assert RenderAll(roots + [n], host) == RenderAll(roots, host) + [Rendering(n, host)];
    CollectAppend(RenderAll(roots, host), Rendering(n, host));
  }

  /** A grid root never fails the page render: a grid whose first row is null renders,
      carrying a columns fragment that throws only once the data grid runs it, so a text
      box after it is the root whose failure the page reports. */
  lemma DeferredGridFailure(g: Grid, t: TextBox, host: Host)
    requires g.source == GenericSource([None])
    ensures Rendering(GridNode(g), host).Ok?
    ensures Rendering(GridNode(g), host).value.attrs["ChildContent"].components[0].attrs["Columns"] ==
              Throwing(NullReference)
    ensures Collect(RenderAll([GridNode(g), TextBoxNode(t)], host)) == Err(NotImplemented)
  {
    GenericGrids.RenderedGrid([None], g.filterValues);
    var results := RenderAll([GridNode(g), TextBoxNode(t)], host);
    assert results[0].Ok? && results[1] == Err(NotImplemented);
    assert Collect(results[..1]).Ok?;
    CollectStopsAt(results, 1);
  }

  /** How many roots the render loop runs to completion: all of them, or those before
      the first failure. */
  function RenderedCount(results: seq<Result<Descriptor>>): (k: nat)
    ensures k <= |results|
    ensures forall j :: 0 <= j < k ==> results[j].Ok?
    ensures k < |results| ==> results[k].Err?
  {
    if results == [] || results[0].Err? then 0 else 1 + RenderedCount(results[1..])
  }

  /** The binding of the last drop-down root in `roots` that renders into `p`, if any. */
  function LastSelection(roots: seq<Node>, p: DropDownParameters): (s: Option<Binding>)
    ensures s.None? <==> forall j :: 0 <= j < |roots| && roots[j].IsDropDown() ==> roots[j].Config() != p
    ensures s.Some? ==>
              exists j :: 0 <= j < |roots| && roots[j].IsDropDown() && roots[j].Config() == p &&
                          roots[j].Selection() == s.value &&
                          forall m :: j < m < |roots| && roots[m].IsDropDown() ==> roots[m].Config() != p
  {
    if roots == [] then None
    else
      var n := roots[|roots| - 1];
      if n.IsDropDown() && n.Config() == p then Some(n.Selection())
      else LastSelection(roots[..|roots| - 1], p)
  }

  /** The properties of a configuration object that held `props`, once the drop-down
      root with binding `s` (if any) has last rendered into it. */
  function SelectionState(host: Host, props: Attrs, s: Option<Binding>): Attrs
  {
    match s
    case None => props
    case Some(binding) => WithSelection(host, props, binding)
  }

  /** Each configuration object the renders of `roots` write holds what the first `k`
      of them leave in it, from the properties it held in `start`. */
  ghost predicate Selections(host: Host, roots: seq<Node>, k: nat, start: map<DropDownParameters, Attrs>)
    requires k <= |roots|
    reads AllConfigs(roots)
  {
    forall p :: p in AllConfigs(roots) ==>
      p in start && p.props == SelectionState(host, start[p], LastSelection(roots[..k], p))
  }

  /** What `Selections` states of each configuration object; the selections written
      leave every other property as it was. */
  lemma SelectionsKept(host: Host, roots: seq<Node>, k: nat, start: map<DropDownParameters, Attrs>)
    requires k <= |roots| && Selections(host, roots, k, start)
    ensures forall p :: p in AllConfigs(roots) ==>
              p in start && p.props == SelectionState(host, start[p], LastSelection(roots[..k], p))
    ensures forall p :: p in AllConfigs(roots) ==> SameButSelection(start[p], p.props)
  {
    forall p | p in AllConfigs(roots)
      ensures SameButSelection(start[p], p.props)
    {
      var s := LastSelection(roots[..k], p);
      if s.Some? {
        RenderTwice(host, start[p], s.value);
      }
    }
  }

  /** One more root rendered: a drop-down root writing into `p` replaces the selection
      held there, and any other root leaves `p` as it was. */
  lemma SelectionStep(host: Host, roots: seq<Node>, i: nat, p: DropDownParameters,
                      start: Attrs, before: Attrs, after: Attrs)
    requires i < |roots|
    requires before == SelectionState(host, start, LastSelection(roots[..i], p))
    requires roots[i].IsDropDown() && roots[i].Config() == p ==> after == WithSelection(host, before, roots[i].Selection())
    requires !(roots[i].IsDropDown() && roots[i].Config() == p) ==> after == before
    ensures after == SelectionState(host, start, LastSelection(roots[..i + 1], p))
  {
    assert roots[..i + 1][..i] == roots[..i];
    var last := LastSelection(roots[..i], p);
    if roots[i].IsDropDown() && roots[i].Config() == p && last.Some? {
      SelectionRewritten(host, start, last.value, roots[i].Selection());
    }
  }

  /** The render of a drop-down root: its `Render` writes the selection, then projects. */
  method RenderDropDown(n: Node, host: Host) returns (d: Descriptor)
    requires n.IsDropDown()
    modifies n.Config()
    ensures n.Config().props == WithSelection(host, old(n.Config().props), n.Selection())
    ensures Ok(d) == old(Rendering(n, host))
  {
    if n.DropDownNode? {
      d := n.dropDown.Render(host, n.dropDown);
    } else {
      d := n.recordDropDown.Render(host, n.recordDropDown);
    }
  }

  /** The render of one root, as the builder's loop performs it: a drop-down list writes
      its selection into its configuration object first. That write changes the
      rendering of no root, `n`'s included, since every drop-down render overwrites the
      selection before projecting; and it keeps every other configuration property. */
  method RenderRoot(n: Node, host: Host, ghost others: seq<Node>) returns (r: Result<Descriptor>)
    modifies n.Configs()
    ensures r == old(Rendering(n, host))
    ensures n.IsDropDown() ==> n.Config().props == WithSelection(host, old(n.Config().props), n.Selection())
    ensures r.Err? ==> !n.IsDropDown() && n.Configs() == {}
    ensures forall p :: p in AllConfigs(others) ==> SameButSelection(old(p.props), p.props)
    ensures RenderAll(others, host) == old(RenderAll(others, host))
  {
    if !n.IsDropDown() {
      return Rendering(n, host);
    }
    var d := RenderDropDown(n, host);
    r := Ok(d);
    var p, selection := n.Config(), n.Selection();
    RenderTwice(host, old(p.props), selection);
    forall j | 0 <= j < |others|
      ensures Rendering(others[j], host) == old(Rendering(others[j], host))
    {
      var m := others[j];
      if m.IsDropDown() && m.Config() == p {
        SelectionRewritten(host, old(p.props), selection, m.Selection());
      }
    }
    assert RenderAll(others, host) == old(RenderAll(others, host));
  }

  /** Root `i` rendered as the builder's loop renders it, after the roots before it: a
      successful render brings the selections written so far up to root `i`, and a
      failed one, which is never a drop-down list's, writes nothing. */
  method RenderNext(roots: seq<Node>, i: nat, host: Host, ghost start: map<DropDownParameters, Attrs>)
    returns (r: Result<Descriptor>)
    requires i < |roots| && Selections(host, roots, i, start)
    modifies roots[i].Configs()
    ensures r == old(Rendering(roots[i], host))
    ensures RenderAll(roots, host) == old(RenderAll(roots, host))
    ensures Selections(host, roots, if r.Ok? then i + 1 else i, start)
  {
    var n := roots[i];
    label before:
    r := RenderRoot(n, host, roots);
    if r.Ok? {
      forall p | p in AllConfigs(roots)
        ensures p in start && p.props == SelectionState(host, start[p], LastSelection(roots[..i + 1], p))
      {
        SelectionStep(host, roots, i, p, start[p], old@before(p.props), p.props);
      }
    }
  }

  /** The components `Clear` disposes for `roots`: each root's component that is
      disposable, in root order. */
  function Disposables(host: Host, roots: seq<Node>): (ds: seq<object>)
    ensures |ds| <= |roots|
  {
    if roots == [] then []
    else
      var last := roots[|roots| - 1].Component();
      var init := Disposables(host, roots[..|roots| - 1]);
      if host.isDisposable(last) then init + [last] else init
  }

  /** Exactly the disposable root components are disposed: each disposed object is a
      disposable root component, and every disposable root component is disposed. */
  lemma {:induction false} DisposablesAreDisposableRoots(host: Host, roots: seq<Node>)
    ensures forall i :: 0 <= i < |Disposables(host, roots)| ==>
              host.isDisposable(Disposables(host, roots)[i]) &&
              exists j :: 0 <= j < |roots| && roots[j].Component() == Disposables(host, roots)[i]
    ensures forall j :: 0 <= j < |roots| && host.isDisposable(roots[j].Component()) ==>
              roots[j].Component() in Disposables(host, roots)
  {
    if roots != [] {
      var n := |roots| - 1;
      var init := roots[..n];
      var last := roots[n].Component();
      var ds, prev := Disposables(host, roots), Disposables(host, init);
      DisposablesAreDisposableRoots(host, init);
      assert ds == if host.isDisposable(last) then prev + [last] else prev;
      forall i | 0 <= i < |ds|
        ensures host.isDisposable(ds[i]) && exists j :: 0 <= j < |roots| && roots[j].Component() == ds[i]
      {
        if i < |prev| {
          assert ds[i] == prev[i];
          var j :| 0 <= j < |init| && init[j].Component() == prev[i];
          assert roots[j] == init[j];
        } else {
          assert ds[i] == last && roots[n].Component() == last;
        }
      }
      forall j | 0 <= j < |roots| && host.isDisposable(roots[j].Component())
        ensures roots[j].Component() in ds
      {
        if j < n {
          assert init[j] == roots[j];
          assert roots[j].Component() in prev;
        }
      }
    }
  }

  /** One more root disposes its component after the earlier ones' exactly when the
      component is disposable. */
  lemma DisposablesOneMore(host: Host, roots: seq<Node>, i: nat)
    requires i < |roots|
    ensures Disposables(host, roots[..i + 1]) ==
              Disposables(host, roots[..i]) +
              (if host.isDisposable(roots[i].Component()) then [roots[i].Component()] else [])
  {
    assert roots[..i + 1][..i] == roots[..i];
  }

  class GuiBuilder {
    /** `Component`: the component most recently created. */
    var component: object?
    var focus: object?
    /** `rootComponents`, in insertion order. */
    var roots: seq<Node>
    /** The components disposed so far, in order. */
    ghost var disposed: seq<object>

    constructor ()
      ensures component == null && focus == null && roots == [] && disposed == []
    {
      component := null;
      focus := null;
      roots := [];
      disposed := [];
    }

    /** The page a render produces from the current state. */
    function Layout(host: Host): Result<Page>
      reads this, Footprints(roots)
    {
      match Collect(RenderAll(roots, host))
      case Ok(entries) => Ok(Page("div", PageStyle, entries))
      case Err(e) => Err(e)
    }

    /** The page is a flex-column `div` holding one entry per root, in root order,
        numbered from `FirstSequence`, each the root rendered with itself as focus; it
        exists exactly when every root renders, and otherwise the error is that of the
        first root that fails. */
    lemma PageOfRoots(host: Host)
      ensures Layout(host).Ok? <==> forall k :: 0 <= k < |roots| ==> Rendering(roots[k], host).Ok?
      ensures Layout(host).Ok? ==>
                var page := Layout(host).value;
                page.element == "div" && page.style == PageStyle && |page.entries| == |roots| &&
                forall k :: 0 <= k < |roots| ==>
                  page.entries[k] == Entry(FirstSequence + k, Rendering(roots[k], host).value)
      ensures Layout(host).Err? ==>
                exists k :: FirstFailure(RenderAll(roots, host), k) &&
                            Layout(host).error == Rendering(roots[k], host).error
    {
    }

    /** A builder without roots renders the empty page. */
    lemma NoRootsEmptyPage(host: Host)
      requires roots == []
      ensures Layout(host) == Ok(Page("div", PageStyle, []))
    {
    }

    /** The `Focus` setter. */
    method SetFocus(c: object?)
      modifies this`focus
      ensures focus == c
    {
      focus := c;
    }

    /** Appends a root; a component already present is appended again. */
    method AddComponent(n: Node)
      modifies this`roots
      ensures roots == old(roots) + [n]
    {
      roots := roots + [n];
    }

    /** `Validate`: checks nothing. */
    method Validate()
    {
    }

    /** The loop of `Render`: renders every root in order, each with itself as focus,
        numbering the contents from `FirstSequence`; the first failing render ends it
        with that error. */
    method RenderContents(host: Host) returns (r: Result<seq<Entry>>)
      modifies AllConfigs(roots)
      ensures r == old(Collect(RenderAll(roots, host)))
      ensures RenderAll(roots, host) == old(RenderAll(roots, host))
      ensures forall p :: p in AllConfigs(roots) ==> SameButSelection(old(p.props), p.props)
      ensures var k := RenderedCount(old(RenderAll(roots, host)));
              forall p :: p in AllConfigs(roots) ==>
                p.props == SelectionState(host, old(p.props), LastSelection(roots[..k], p))
    {
      var rs := roots;
      ghost var expected := RenderAll(rs, host);
      ghost var start := map p | p in AllConfigs(rs) :: p.props;
      var entries: seq<Entry> := [];
      var failure: Option<Error> := None;
      var sequence := FirstSequence;
      var i := 0;
      while i < |rs| && failure.None?
        invariant 0 <= i <= |rs| && sequence == FirstSequence + i
        invariant failure.None? ==> Collect(expected[..i]) == Ok(entries)
        invariant failure.Some? ==> Collect(expected) == Err(failure.value) && RenderedCount(expected) == i
        invariant RenderAll(rs, host) == expected
        invariant Selections(host, rs, i, start)
        decreases |rs| - i, if failure.None? then 1 else 0
      {
        assert rs[i].Configs() <= AllConfigs(rs);
        var result := RenderNext(rs, i, host, start);
        if result.Err? {
          CollectStopsAt(expected, i);
          failure := Some(result.error);
        } else {
          CollectOneMore(expected, i);
          entries := entries + [Entry(sequence, result.value)];
          sequence := sequence + 1;
          i := i + 1;
        }
      }
      if failure.Some? {
        r := Err(failure.value);
      } else {
        assert expected[..i] == expected;
        assert RenderedCount(expected) == i;
        r := Ok(entries);
      }
      SelectionsKept(host, rs, i, start);
    }

    /** `Render`: the page holding the contents of every root. The only state it changes
        is the selection written into drop-down configuration objects, which never
        changes what any render produces, so rendering again gives the same page. */
    method Render(host: Host) returns (r: Result<Page>)
      modifies AllConfigs(roots)
      ensures r == old(Layout(host))
      ensures Layout(host) == r
      ensures forall p :: p in AllConfigs(roots) ==> SameButSelection(old(p.props), p.props)
      ensures var k := RenderedCount(old(RenderAll(roots, host)));
              forall p :: p in AllConfigs(roots) ==>
                p.props == SelectionState(host, old(p.props), LastSelection(roots[..k], p))
    {
      ghost var expected := RenderAll(roots, host);
      var contents := RenderContents(host);
      assert RenderAll(roots, host) == expected;
      r := match contents
        case Ok(entries) => Ok(Page("div", PageStyle, entries))
        case Err(e) => Err(e);
    }

    /** `CreateStack`: a fresh, childless stack without parent, appended as a root and
        made the current component. */
    method CreateStack(enabled: bool, hidden: bool) returns (s: Stack)
      modifies this`roots, this`component
      ensures fresh(s) && s.enabled == enabled && s.hidden == hidden && s.parent == null && s.children == []
      ensures roots == old(roots) + [StackNode(s)] && component == s
    {
      s := new Stack(enabled, hidden, null);
      AddComponent(StackNode(s));
      component := s;
    }

    /** `CreateButton`, `CreateCheckBox`, `CreateDatePicker`, `CreateTimePicker`,
        `CreateDateTimePicker` and `CreateLabel`: a fresh widget of that family, appended
        as a root and made the current component. */
    method CreateWidget(family: WidgetFamily) returns (w: Widget)
      modifies this`roots, this`component
      ensures fresh(w) && w.family == family
      ensures roots == old(roots) + [WidgetNode(w)] && component == w
    {
      w := new Widget(family);
      AddComponent(WidgetNode(w));
      component := w;
    }

    /** `CreateDialogBox`: the dialog writes its title into the given parameters object,
        or into a fresh one. */
    method CreateDialogBox(title: string, content: Option<seq<string>>, parameters: DialogParameters?,
                           enabled: bool, hidden: bool, defaults: Attrs) returns (d: DialogBox)
      modifies this`roots, this`component, parameters
      ensures fresh(d) && d.enabled == enabled && d.hidden == hidden && d.parent == null && d.children == []
      ensures parameters != null ==> d.parameters == parameters
      ensures parameters == null ==> fresh(d.parameters)
      ensures d.parameters.props ==
                (if parameters != null then old(parameters.props) else defaults)["Title" := Str(title)]
      ensures roots == old(roots) + [DialogNode(d)] && component == d
    {
      d := new DialogBox(title, content, parameters, enabled, hidden, null, defaults);
      AddComponent(DialogNode(d));
      component := d;
    }

    /** `CreateDropDownList` over a list of values: the list is stored as the `Items` of
        the given parameters object, or of a fresh one. */
    method CreateDropDownList(defaultValue: Value, values: seq<Value>, parameters: DropDownParameters?,
                              onChange: Callback, column: Option<Column>, enabled: bool, hidden: bool,
                              defaults: Attrs) returns (g: GenericDropDownList)
      modifies this`roots, this`component, parameters
      ensures fresh(g) && g.enabled == enabled && g.hidden == hidden && g.parent == null
      ensures g.binding == Binding(defaultValue, column, onChange)
      ensures parameters != null ==> g.parameters == parameters
      ensures parameters == null ==> fresh(g.parameters)
      ensures g.parameters.props ==
                (if parameters != null then old(parameters.props) else defaults)["Items" := List(values)]
      ensures roots == old(roots) + [DropDownNode(g)] && component == g
    {
      g := new GenericDropDownList(defaultValue, values, parameters, onChange, column, enabled, hidden, null, defaults);
      AddComponent(DropDownNode(g));
      component := g;
    }

    /** `CreateDropDownList` over a record list: the list is not stored anywhere. */
    method CreateRecordDropDownList(defaultValue: Value, data: Value, parameters: DropDownParameters?,
                                    onChange: Callback, column: Option<Column>, enabled: bool, hidden: bool,
                                    defaults: Attrs) returns (g: RecordDropDownList)
      modifies this`roots, this`component
      ensures fresh(g) && g.enabled == enabled && g.hidden == hidden && g.parent == null
      ensures g.binding == Binding(defaultValue, column, onChange)
      ensures parameters != null ==> g.parameters == parameters && g.parameters.props == old(parameters.props)
      ensures parameters == null ==> fresh(g.parameters) && g.parameters.props == defaults
      ensures roots == old(roots) + [RecordDropDownNode(g)] && component == g
    {
      g := new RecordDropDownList(defaultValue, data, parameters, onChange, column, enabled, hidden, null, defaults);
      AddComponent(RecordDropDownNode(g));
      component := g;
    }

    /** `CreateRadioList`: when the constructor throws, nothing is appended and the
        current component stays, though the writes into a given parameters object made
        before the throw remain. */
    method CreateRadioList(values: Option<seq<Value>>, defaultValue: Value, parameters: RadioParameters?,
                           onChange: Callback, column: Option<Column>, enabled: bool, hidden: bool,
                           defaults: Attrs) returns (r: Result<RadioList>)
      modifies this`roots, this`component, parameters
      ensures values.None? ==> r == Err(ArgumentNull("values"))
      ensures values.Some? && defaultValue !in values.value ==> r == Err(InvalidSelection(defaultValue, values.value))
      ensures r.Ok? <==> values.Some? && defaultValue in values.value
      ensures parameters != null && values.None? ==> parameters.props == old(parameters.props)
      ensures parameters != null && values.Some? ==>
                parameters.props == WithValues(old(parameters.props), values.value, defaultValue)
      ensures r.Ok? ==>
                fresh(r.value) && r.value.binding == Binding(defaultValue, column, onChange) &&
                r.value.enabled == enabled && r.value.hidden == hidden && r.value.parent == null &&
                (parameters != null ==> r.value.parameters == parameters) &&
                (parameters == null ==>
                   fresh(r.value.parameters) &&
                   r.value.parameters.props == WithValues(defaults, values.value, defaultValue))
      ensures r.Ok? ==> roots == old(roots) + [RadioNode(r.value)] && component == r.value
      ensures r.Err? ==> roots == old(roots) && component == old(component)
    {
      r := RadioList.New(values, defaultValue, parameters, onChange, column, enabled, hidden, null, defaults);
      if r.Ok? {
        AddComponent(RadioNode(r.value));
        component := r.value;
      }
    }

    /** `CreateTab`: the pairs become the `TabItems` of the given parameters object, or of
        a fresh one. */
    method CreateTab(items: seq<TabItem>, parameters: TabParameters?, enabled: bool, hidden: bool,
                     defaults: Attrs) returns (t: Tab)
      modifies this`roots, this`component, parameters
      ensures fresh(t) && t.enabled == enabled && t.hidden == hidden && t.parent == null
      ensures parameters != null ==> t.parameters == parameters && t.parameters.props == old(parameters.props)
      ensures parameters == null ==> fresh(t.parameters) && t.parameters.props == defaults
      ensures t.parameters.tabItems == items
      ensures roots == old(roots) + [TabNode(t)] && component == t
    {
      t := new Tab(items, parameters, enabled, hidden, null, defaults);
      AddComponent(TabNode(t));
      component := t;
    }

    /** `CreateTextField`. */
    method CreateTextField(defaultValue: string, parameters: TextParameters?, column: Option<Column>,
                           enabled: bool, hidden: bool, defaults: Attrs) returns (t: TextField)
      modifies this`roots, this`component
      ensures fresh(t) && t.enabled == enabled && t.hidden == hidden && t.parent == null
      ensures t.binding == Binding(Str(defaultValue), column, DefaultCallback)
      ensures parameters != null ==> t.parameters == parameters
      ensures parameters == null ==> fresh(t.parameters) && t.parameters.props == defaults
      ensures roots == old(roots) + [TextFieldNode(t)] && component == t
    {
      t := new TextField(defaultValue, parameters, column, enabled, hidden, null, defaults);
      AddComponent(TextFieldNode(t));
      component := t;
    }

    /** `CreateTextBox`: the paragraphs, joined by the host's line separator, are the
        initial value. */
    method CreateTextBox(host: Host, text: seq<string>, parameters: TextParameters?, column: Option<Column>,
                         enabled: bool, hidden: bool, defaults: Attrs) returns (t: TextBox)
      modifies this`roots, this`component
      ensures fresh(t) && t.enabled == enabled && t.hidden == hidden && t.parent == null
      ensures t.paragraphs == text
      ensures t.binding == Binding(Str(Join(host.newLine, text)), column, DefaultCallback)
      ensures parameters != null ==> t.parameters == parameters
      ensures parameters == null ==> fresh(t.parameters) && t.parameters.props == defaults
      ensures roots == old(roots) + [TextBoxNode(t)] && component == t
    {
      t := new TextBox(host, text, parameters, column, enabled, hidden, null, defaults);
      AddComponent(TextBoxNode(t));
      component := t;
    }

    /** `CreateGrid` over a list of items: a generic grid without predefined columns;
        when an item cannot be cast to a row, nothing is appended and the current
        component stays. */
    method CreateGrid(data: seq<Value>, enabled: bool, hidden: bool) returns (r: Result<Grid>)
      modifies this`roots, this`component
      ensures r.Ok? <==> GenericGrids.CastRecords(data).Ok?
      ensures r.Err? ==> r.error == GenericGrids.CastRecords(data).error
      ensures r.Ok? ==>
                fresh(r.value) && r.value.source == GenericSource(GenericGrids.CastRecords(data).value) &&
                r.value.columns == [] && r.value.filterValues == map[] &&
                r.value.enabled == enabled && r.value.hidden == hidden && r.value.parent == null
      ensures r.Ok? ==> roots == old(roots) + [GridNode(r.value)] && component == r.value
      ensures r.Err? ==> roots == old(roots) && component == old(component)
    {
      r := Grid.NewGeneric(data, enabled, hidden, None, null);
      if r.Ok? {
        AddComponent(GridNode(r.value));
        component := r.value;
      }
    }

    /** `CreateGrid` over a record list: a record grid given no column list, which has no
        predefined columns, appended as a root. */
    method CreateRecordGrid(recordList: seq<Option<Record>>, enabled: bool, hidden: bool) returns (g: Grid)
      modifies this`roots, this`component
      ensures fresh(g) && g.source == RecordSource(recordList) && g.columns == [] && g.filterValues == map[]
      ensures g.enabled == enabled && g.hidden == hidden && g.parent == null
      ensures roots == old(roots) + [GridNode(g)] && component == g
    {
      g := new Grid.FromColumns(None, RecordSource(recordList), enabled, hidden, null);
      AddComponent(GridNode(g));
      component := g;
    }

    /** `CreateGrid` over records and columns: one free grid column per column; the grid
        becomes the current component but is not appended as a root. */
    method CreateGridWithColumns(recordList: seq<Option<Record>>, columns: seq<Column>, enabled: bool, hidden: bool)
      returns (g: Grid)
      modifies this`component
      ensures fresh(g) && g.source == RecordSource(recordList) && g.filterValues == map[]
      ensures |g.columns| == |columns| &&
              forall i :: 0 <= i < |columns| ==>
                g.columns[i] == GridColumns.NewUnbound(SystemType, TypeObject(columns[i].valueType), columns[i].title,
                                           enabled, hidden, g, DefaultCallback)
      ensures g.enabled == enabled && g.hidden == hidden && g.parent == null
      ensures component == g
    {
      g := new Grid.FromColumns(Some(columns), RecordSource(recordList), enabled, hidden, null);
      component := g;
    }

    /** `CreateGrid` over a record source and a filter: a record grid over the records
        the source selects for the filter (`selected`, computed by the source), with no
        predefined columns; it becomes the current component but is not appended. */
    method CreateGridFromSource(selected: seq<Option<Record>>, enabled: bool, hidden: bool) returns (g: Grid)
      modifies this`component
      ensures fresh(g) && g.source == RecordSource(selected) && g.columns == [] && g.filterValues == map[]
      ensures g.enabled == enabled && g.hidden == hidden && g.parent == null
      ensures component == g
    {
      g := new Grid.FromColumns(None, RecordSource(selected), enabled, hidden, null);
      component := g;
    }

    /** `Clear`: disposes every disposable root component, in root order, then forgets
        the roots, the current component and the focus. */
    method Clear(host: Host)
      modifies this`roots, this`component, this`focus, this`disposed
      ensures disposed == old(disposed) + Disposables(host, old(roots))
      ensures roots == [] && component == null && focus == null
    {
      var rs := roots;
      var i := 0;
      while i < |rs|
        invariant 0 <= i <= |rs|
        invariant disposed == old(disposed) + Disposables(host, rs[..i])
      {
        var c := rs[i].Component();
        DisposablesOneMore(host, rs, i);
        if host.isDisposable(c) {
          disposed := disposed + [c];
        }
        i := i + 1;
      }
      assert rs[..i] == rs;
      roots := [];
      component := null;
      focus := null;
    }
  }
}
