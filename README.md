# GUI builder: a Dafny model

This project models the core of a Blazor GUI builder written in C#.

- **The builder.** `GuiBuilder` creates widgets and keeps an ordered list of root components. It tracks the most recently created component and the focused one. It renders the roots into one page: a column-flex `div` holding one content entry per root, numbered from 2. `Clear` disposes the disposable roots and forgets everything.
- **The widgets.** Each widget turns its configuration object into the attribute map of a host component:
  - stack and dialog box;
  - tab control;
  - radio list;
  - the two drop-down lists, over values and over records;
  - text box and text field;
  - the two data grid kinds, over dictionaries and over records, with their grid columns.

How the model is built:

- **Widgets are classes.** Their identity matters: the roots, the focus and the parent are references.
- **Configuration objects are classes too.** A widget writes into the object it was given, and whoever else holds that object sees the write. Each object holds a property bag, `props`.
- **Renders become descriptors.** A render produces a `Descriptor`: the host component kind and its attribute map.
- **Exceptions become errors.** A thrown exception is an `Err` of a `Result`.
- **Unseen collaborators are parameters.** These are:
  - reflection-based `ExtractParameters`;
  - `CreateChildComponents`;
  - the renders of the widgets whose classes are not part of this model;
  - `ToString()`, the `IDisposable` test and `Environment.NewLine`.

  They are uninterpreted functions of a `Host` value passed as a parameter, and the model gives them no contract.

The files follow the source, one module per class:

| file | models |
|---|---|
| `values.dfy` | shared values, errors and host collaborators |
| `parameters.dfy` | the configuration objects |
| `stack.dfy` | `Stack.cs` |
| `dialog_box.dfy` | `DialogBox.cs` |
| `tab.dfy` | `Tab.cs` |
| `radio_list.dfy` | `Radiolist.cs` |
| `drop_down_list.dfy` | `GenericDropDownList.cs` and `RecordDropDownlist.cs` |
| `text_box.dfy` | `TextBox.cs` |
| `text_field.dfy` | `TextField.cs` |
| `grid_column.dfy` | `GridColumn.cs` |
| `grid_base.dfy` | the value-level parts shared by `Grid.cs`, `GenericGrid.cs` and `RecordGrid.cs` |
| `generic_grid.dfy` | `GenericGrid.cs` |
| `record_grid.dfy` | `RecordGrid.cs` |
| `grid.dfy` | the grid object, from `Grid.cs` |
| `gui_builder.dfy` | `GuiBuilder.cs` |

The builder's render is the central proof.

- **Drop-down renders write state.** A drop-down list writes its selected value and change callback into its configuration object every time it renders. Several roots may share one configuration object.
- **The loop is proved against `Layout`.** `GuiBuilder.Render` is a loop over the roots. It is proved to return exactly `Layout`, the page computed from the state before the render. It is also proved to leave `Layout` unchanged, so rendering again gives the same page. It changes no configuration property except the selection.

## Model

| member | source | states |
|---|---|---|
| Values.Cast | GridColumn.cs:21-23 | a C# cast keeps the value and succeeds exactly for instances of the target type and for null cast to a reference type; null unboxed to a value type (`int`, `bool`) fails with a null reference; any other value fails with an invalid-cast error carrying the value and the type |
| GridBase.GetFilterValue | Grid.cs:73-76 | the recorded filter value for a key, and null when none is recorded |
| GridBase.CellValue | Grid.cs:83-89 | a cell shows the row's entry under the key, and null when a sparse row lacks the key |
| GridBase.ColumnDefinition | GenericGrid.cs:86-92 | a column definition has exactly the keys Title, Width, FilterValue and Template: the title, "150px", the filter value for the title and the cell template for the title |
| GridBase.ColumnsFor | GenericGrid.cs:83-93 | one column definition per title, in order |
| GridBase.DataGridSettings | GenericGrid.cs:54-70 | the data grid always has filtering, column picking, paging and sorting on, page size 2, sizes [2, 10, 20, 30], 300px columns and the simple-with-menu filter; the initial page size is one of the offered sizes; the data and the columns fragment are passed through unchanged |
| GridBase.DataGridDescriptor | GenericGrid.cs:54-70 | the data grid descriptor over a row type, the data and the columns fragment; its attributes are stated by `DataGridSettings` |
| GridBase.ColumnsValue | GenericGrid.cs:77-95 | the columns fragment a data grid runs: it emits the built columns, or throws the error building them raised |
| GridBase.StackWrap | GenericGrid.cs:42-48 | a stack whose only content is the given component |
| GenericGrids.AsRow | GenericGrid.cs:30-35 | one element casts exactly when it is null or a dictionary; otherwise the error names the element and the dictionary type |
| GenericGrids.CastRecords | GenericGrid.cs:30-35 | the cast list has the data's length and order, each element cast; it fails exactly when some element is neither null nor a dictionary, with the error of the first such element |
| GenericGrids.BuildGridColumns | GenericGrid.cs:77-95 | no records give no columns; a null first row gives a null-reference error; otherwise one column per key of the first row, in key order |
| GenericGrids.Render | GenericGrid.cs:42-48 | the generic grid's render: a stack around the dictionary data grid, whose columns fragment emits the built columns or throws the error building them raises; its shape is stated by `RenderedGrid` |
| GenericGrids.RenderedGrid | GenericGrid.cs:42-48 | the render never fails: it is a stack whose only child is the dictionary data grid over the rows; the grid's columns fragment emits the first row's columns when there are no records or the first row is not null, and otherwise throws a null reference only when the data grid runs it |
| GenericGrids.ColumnsFromFirstRowOnly | GenericGrid.cs:83-93 | rows after the first never change the columns |
| GenericGrids.TwoRowsScenario | GenericGrid.cs:77-95 | rows {Name, Age} and {Name} give the columns Name then Age, and the second row's Age cell is null |
| GenericGrids.NonDictionaryRejected | GenericGrid.cs:30-35 | a list holding any element that is neither null nor a dictionary cannot become a grid, and the error names such an element |
| RecordGrids.Titles | RecordGrid.cs:84-87 | the titles of the given columns, one per column, in order: the title each record-grid column carries |
| RecordGrids.BuildGridColumns | RecordGrid.cs:76-94 | no records give no columns; a null first record fails with a null reference; otherwise one column per column of the first record, in order, titled and filtered by the column's title |
| RecordGrids.Render | RecordGrid.cs:41-47 | the record grid's render: a stack around the record data grid over the records, whose columns fragment emits the built columns or throws the error building them raises; its shape is stated by `RenderedGrid` |
| RecordGrids.RenderedGrid | RecordGrid.cs:41-69 | the render never fails: it is a stack whose only key is ChildContent, a fragment holding exactly the record data grid over the records; the grid's columns fragment emits the first record's columns when there are no records or the first record is not null, and otherwise throws a null reference only when the data grid runs it |
| RecordGrids.FilterValuesShown | RecordGrid.cs:87-90 | when the first record is not null, every rendered record column shows its title and the filter value recorded under its title, or null |
| RecordGrids.EnumerateColumnsAsWritten | Grid.cs:31-39 | as written, enumerating a null column list throws a null-reference error; a given list is enumerated as is |
| RecordGrids.EnumerateColumns | Grid.cs:31-39 | as intended, a null column list means no columns; a given list is enumerated as is |
| RecordGrids.NullColumnsFinding | GuiBuilder.cs:417-426 | the null column list that the builder passes always throws as written, and gives no columns as intended; the two agree on every given list |
| GridColumns.NewUnbound | GridColumn.cs:44-46 | a free column holds the given value, has no bound column, keeps type, flags, parent and callback, and drops the title |
| GridColumns.NewBoundAsWritten | GridColumn.cs:21-33 | as written: a value that does not cast fails with the cast's error (invalid cast, or a null reference for null in a value-typed column); the type check on the `Type` object then fails with the column's SQL and the type; it succeeds only for the `object` and `System.Type` column types, and then holds the cast value, the bound column and the callback with the given type, flags and parent |
| GridColumns.NewBound | GridColumn.cs:21-33 | as intended: a value that does not cast fails with the cast's error; accepted exactly when the value casts and the declared type is the column type; the column then holds the column's value and the bound column; the default value is unused |
| GridColumns.Render | GridColumn.cs:61-64 | rendering a grid column always fails with not-implemented |
| GridColumns.BoundTypeCheckRejectsMatches | GridColumn.cs:24-32 | for every column type other than object and System.Type, a column whose declared type and value both match is rejected as written and accepted as intended |
| GridColumns.IntColumnRefused | GridColumn.cs:24-32 | an int column holding 30 is refused as an int grid column as written, and accepted as intended |
| GridColumns.BoundMatchesDeclaredType | GridColumn.cs:21-33 | an accepted bound column has the column type as declared type, and its value is of that type, or null only when that type is a reference type |
| GridColumns.NullIntColumnRefused | GridColumn.cs:21-22 | an `int` column holding null is refused with a null reference by the unboxing cast, before the type check, as written and as intended |
| Grids.Grid.FromGridColumns | Grid.cs:17-20 | the grid keeps the given grid columns in order, or none for a null list; no filter values |
| Grids.Grid.FromColumns | Grid.cs:31-39 | exactly one free `System.Type` column per input column, in input order, holding its declared type and owned by the grid |
| Grids.Grid.AddGridColumn | Grid.cs:52-55 | exactly one column is appended at the end, with the grid's current flags and the grid as parent; earlier columns are unchanged |
| Grids.Grid.AddBoundGridColumn | Grid.cs:63-66 | an accepted bound column is appended at the end; a rejected one leaves the columns unchanged and reports the rejection |
| Grids.Grid.Render | GenericGrid.cs:42-48 | a grid renders as its kind does: the generic grid's render over its rows, or the record grid's render over its records (RecordGrid.cs:41-47), with the grid's filter values; it never fails |
| Grids.Grid.FilterValue | Grid.cs:73-76 | the grid's recorded filter for the key, or null, reading but not changing the filter values |
| Grids.Grid.NewGeneric | GenericGrid.cs:30-35 | construction fails with the cast error when an item cannot be cast; otherwise a fresh grid over the cast rows, with the given grid columns or none |
| RadioLists.IndexOf | Radiolist.cs:39 | -1 exactly when the value is absent; otherwise the first position holding it |
| RadioLists.WithValues | Radiolist.cs:37-39 | the configuration gains the candidate list under Values and the default value's index under Selected, every other property kept |
| RadioLists.RadioList.New | Radiolist.cs:32-50 | a null list fails with argument-null and writes nothing; otherwise Values and Selected are written before the check, so they remain when a missing default fails with the default and the list; on success a fresh radio list over the given or a fresh configuration |
| RadioLists.RadioList.Render | Radiolist.cs:64-69 | the radio component with exactly the projection of the configuration, read without being changed |
| RadioLists.SelectedIsDefault | Radiolist.cs:39-49 | on success the candidate at Selected is the default value, and no earlier candidate is |
| RadioLists.RenderedSelection | Radiolist.cs:64-69 | when the projection copies properties, the rendered list carries the candidates and an in-range Selected naming the default value |
| Tabs.GetTabsList | Tab.cs:61-81 | the tab list: the tab items of the pairs numbered from 0; its shape is stated by `TabsListShape` |
| Tabs.TabsFrom | Tab.cs:61-81 | one tab item per pair, in order, numbered consecutively from the start index |
| Tabs.TabsListShape | Tab.cs:68-79 | the i-th tab item has index i, its pair's header as text and its content, unchanged, as body; there are as many items as pairs |
| Tabs.TwoTabs | Tab.cs:61-81 | two pairs give two tab items indexed 0 and 1, in order |
| Tabs.Tab.constructor | Tab.cs:25-30 | the configuration is the given object or a fresh one, and its TabItems are the given pairs |
| Tabs.Tab.Render | Tab.cs:45-54 | the tabs component over the projection of the configuration with the tab list under TabsList; its shape is stated by `RenderedTabs` |
| Tabs.Tab.RenderedTabs | Tab.cs:45-54 | the render is the projection with TabsList set to, or overwriting, the tab list of the current pairs; every other key is kept |
| Dialogs.DialogBox.constructor | DialogBox.cs:29-36 | Title is written into the given or a fresh configuration; the content is stored nowhere; flags and parent as given; no children |
| Dialogs.DialogBox.Parentable | DialogBox.cs:18 | a dialog box may own children |
| Dialogs.DialogBox.Render | DialogBox.cs:51-65 | the dialog component over the projection of the configuration, with ChildContent when there are children; its shape is stated by `RenderedProjection` |
| Dialogs.DialogBox.RenderedProjection | DialogBox.cs:51-65 | without children the attributes are exactly the projection; with children ChildContent is added, holding the children rendered with the same focus, and every other key is kept |
| Dialogs.DialogBox.ChildContentOnlyWithChildren | DialogBox.cs:51-65 | when the projection copies properties, ChildContent is present exactly when there are children or the configuration has one, and Title is passed through |
| Stacks.Stack.constructor | Stack.cs:16-18 | flags and parent as given, no children |
| Stacks.Stack.Parentable | Stack.cs:20 | a stack may own children |
| Stacks.Stack.Render | Stack.cs:35-50 | the stack component with its children's content, or null; its shape is stated by `RenderedChildren` |
| Stacks.Stack.RenderedChildren | Stack.cs:35-50 | the stack renders exactly one key, ChildContent, and nothing from any configuration; it is null without children and the children rendered with the same focus otherwise |
| DropDowns.SelectedText | GenericDropDownList.cs:42 | the selected value's text, or null for a null value |
| DropDowns.SelectionWritten | GenericDropDownList.cs:40-49 | a render writes SelectedValue, the bound value's text, and OnChange, the bound callback, adding them if absent, and keeps every other property |
| DropDowns.SelectionOverwrites | GenericDropDownList.cs:40-49 | configurations that differ only in the selection become equal after a render's writes |
| DropDowns.RenderTwice | GenericDropDownList.cs:40-49 | a second render with the same binding writes nothing new, so rendering twice gives equal maps |
| DropDowns.SelectionRewritten | RecordDropDownlist.cs:42-51 | a render's writes replace those of any earlier render, whatever that render's binding was |
| DropDowns.GenericDropDownList.constructor | GenericDropDownList.cs:27-32 | the given or a fresh configuration gets the values as Items; the default value is not checked against them |
| DropDowns.GenericDropDownList.Rendered | GenericDropDownList.cs:40-49 | the drop-down component over the projection of the configuration after the selection writes |
| DropDowns.GenericDropDownList.Render | GenericDropDownList.cs:40-49 | writes the selection into the configuration, keeping the rest, and returns what `Rendered` gives for the state before the writes |
| DropDowns.RecordDropDownList.constructor | RecordDropDownlist.cs:28-34 | the given or a fresh configuration, left unchanged: the record list is not stored as Items |
| DropDowns.RecordDropDownList.Rendered | RecordDropDownlist.cs:42-51 | the drop-down component over the projection of the configuration after the selection writes |
| DropDowns.RecordDropDownList.Render | RecordDropDownlist.cs:42-51 | writes the selection into the configuration, keeping the rest, and returns what `Rendered` gives for the state before the writes |
| TextBoxes.Join | TextBox.cs:31 | the joined text is empty for no paragraphs, the paragraph itself for one, starts with the first paragraph and the separator otherwise, and has the paragraphs' total length plus one separator between each two |
| TextBoxes.JoinSnoc | TextBox.cs:31 | joining one more paragraph appends the separator and that paragraph |
| TextBoxes.TextBox.constructor | TextBox.cs:31-35 | the initial value is the paragraphs joined by the platform line separator, with the default callback; the paragraphs are kept; the given or a fresh configuration |
| TextBoxes.TextBox.Render | TextBox.cs:50-57 | rendering a text box always fails with not-implemented |
| TextFields.TextField.constructor | TextField.cs:24-27 | the initial value, bound column, flags and parent are passed unchanged, with the default callback; the given or a fresh configuration, not written |
| TextFields.TextField.Render | TextField.cs:42-47 | the text field component with exactly the projection of the configuration |
| TextFields.ValueNotRendered | TextField.cs:42-47 | text fields sharing a configuration render alike whatever their values: the value never reaches the renderer |
| Builder.Rendering | GuiBuilder.cs:68 | one root's `Render(focus: root)`: each widget's own render, a drop-down list's as its render produces it from the current state, the host's render for opaque widgets; only a text box (and an opaque widget, as the host decides) fails |
| Builder.DeferredGridFailure | GuiBuilder.cs:65-69 | a generic grid whose first row is null renders, carrying a columns fragment that throws later; a text box after it is the root whose not-implemented error the page reports |
| Builder.RenderAll | GuiBuilder.cs:65-69 | one rendering per root, in root order, each root rendered with itself as focus |
| Builder.Collect | GuiBuilder.cs:64-69 | entries exist exactly when every rendering succeeds, one per rendering in order, numbered from 2; otherwise the error of the first failure |
| Builder.CollectOneMore | GuiBuilder.cs:64-69 | one more successful rendering appends its entry, numbered after the earlier ones |
| Builder.CollectStopsAt | GuiBuilder.cs:65-68 | a failure after successful renderings is the outcome of the whole render, whatever follows |
| Builder.CollectAppend | GuiBuilder.cs:64-69 | collecting one more rendering: an earlier failure stays the outcome; otherwise a new failure is, and a new success appends its entry numbered after the earlier ones |
| Builder.AppendedRootRendersLast | GuiBuilder.cs:57-73 | a root appended after the others adds one entry at the end of the page, numbered after theirs, and keeps theirs; an earlier failure still decides the outcome |
| Builder.RenderDropDown | GuiBuilder.cs:68 | a drop-down root's render writes its selection into its configuration and returns the root's rendering from before the write |
| Builder.RenderRoot | GuiBuilder.cs:68 | one root's render returns its rendering from before the call; a drop-down root writes its own selection into its configuration object; a failing root is no drop-down and writes nothing; no configuration property except the selection changes, and the rendering of no root changes |
| Builder.RenderNext | GuiBuilder.cs:64-69 | one turn of the loop: root `i` returns its rendering from before the call, and the selections held by every configuration object are those the roots up to `i` leave, or up to `i - 1` when root `i` fails |
| Builder.RenderedCount | GuiBuilder.cs:64-69 | the number of roots the loop renders: every rendering before it succeeds, and the one at it, if any, fails |
| Builder.LastSelection | GuiBuilder.cs:68 | the binding of the last drop-down root among the given roots that writes into the configuration object, and none exactly when no drop-down root writes into it |
| Builder.SelectionState | GenericDropDownList.cs:42-44 | a configuration object's properties once the given drop-down binding, if any, has written its selection last |
| Builder.SelectionStep | GuiBuilder.cs:64-69 | rendering one more root: a drop-down root writing into the object replaces the selection it held, and any other root leaves it as it was |
| Builder.Selections | GuiBuilder.cs:64-69 | every configuration object holds what the first `k` roots' renders leave in it |
| Builder.SelectionsKept | GuiBuilder.cs:64-69 | what `Selections` states, per configuration object, and that every property except the selection is as it started |
| Builder.Disposables | GuiBuilder.cs:83-89 | at most one disposed component per root |
| Builder.DisposablesAreDisposableRoots | GuiBuilder.cs:83-89 | every disposed object is a disposable root component, and every disposable root component is disposed |
| Builder.DisposablesOneMore | GuiBuilder.cs:83-89 | components are disposed in root order: one more root adds its component at the end exactly when it is disposable |
| Builder.GuiBuilder.constructor | GuiBuilder.cs:16-42 | no roots, no current component, no focus |
| Builder.GuiBuilder.Layout | GuiBuilder.cs:57-73 | the page the render produces from the current state; its shape is stated by `PageOfRoots` |
| Builder.GuiBuilder.PageOfRoots | GuiBuilder.cs:57-73 | the page exists exactly when every root renders; it is the styled flex-column `div` with one entry per root, in root order, numbered from 2, each the root rendered with itself as focus; otherwise the error of the first failing root |
| Builder.GuiBuilder.NoRootsEmptyPage | GuiBuilder.cs:80-94 | a builder without roots, as `Clear` leaves it, renders the wrapper with no entries |
| Builder.GuiBuilder.SetFocus | GuiBuilder.cs:33-36 | the focus becomes the given component, and nothing else changes |
| Builder.GuiBuilder.AddComponent | GuiBuilder.cs:48-51 | the component is appended at the end, with no de-duplication; earlier roots are unchanged |
| Builder.GuiBuilder.RenderContents | GuiBuilder.cs:64-69 | the loop returns exactly the collected renderings of the roots from the state before it, and leaves every rendering unchanged; each drop-down configuration object ends with the selection of the last drop-down root writing into it among the roots before the first failing one, and one no such root writes into is left as it was |
| Builder.GuiBuilder.Render | GuiBuilder.cs:57-73 | returns exactly the page of the state before the render, and the page of the new state is the same; each drop-down configuration object ends with the selection of the last drop-down root writing into it before the first failing root, and is otherwise unchanged |
| Builder.GuiBuilder.CreateStack | GuiBuilder.cs:109-118 | a fresh childless stack is appended as the last root and becomes the current component; the focus is untouched |
| Builder.GuiBuilder.CreateWidget | GuiBuilder.cs:128-221 | a fresh button, check box or picker is appended as the last root and becomes the current component |
| Builder.GuiBuilder.CreateDialogBox | GuiBuilder.cs:232-241 | a fresh dialog with its title written is appended as the last root and becomes the current component |
| Builder.GuiBuilder.CreateDropDownList | GuiBuilder.cs:273-282 | a fresh value drop-down list, with the values as Items, is appended and becomes the current component |
| Builder.GuiBuilder.CreateRecordDropDownList | GuiBuilder.cs:296-306 | a fresh record drop-down list, configuration unchanged, is appended and becomes the current component |
| Builder.GuiBuilder.CreateRadioList | GuiBuilder.cs:320-329 | on success a fresh radio list is appended and becomes the current component; on failure roots and current component are unchanged, though the configuration keeps the writes made before the throw |
| Builder.GuiBuilder.CreateTab | GuiBuilder.cs:339-348 | a fresh tab control over the pairs is appended and becomes the current component |
| Builder.GuiBuilder.CreateTextField | GuiBuilder.cs:359-368 | a fresh text field is appended and becomes the current component |
| Builder.GuiBuilder.CreateTextBox | GuiBuilder.cs:379-388 | a fresh text box whose value is the joined paragraphs is appended and becomes the current component |
| Builder.GuiBuilder.CreateGrid | GuiBuilder.cs:398-407 | when the items cast, a fresh generic grid without predefined columns is appended and becomes the current component; otherwise the cast error, and nothing changes |
| Builder.GuiBuilder.CreateRecordGrid | GuiBuilder.cs:417-426 | a fresh record grid over the list, with no predefined columns, is appended and becomes the current component |
| Builder.GuiBuilder.CreateGridWithColumns | GuiBuilder.cs:436-443 | a fresh record grid with one free column per given column becomes the current component but is not appended, so no render shows it |
| Builder.GuiBuilder.CreateGridFromSource | GuiBuilder.cs:453-460 | a fresh record grid over the selected records becomes the current component but is not appended |
| Builder.GuiBuilder.Clear | GuiBuilder.cs:80-94 | every disposable root is disposed once, in root order, then there are no roots, no current component and no focus |

## Left out

- Builder.GuiBuilder.RenderContents: the `Validate` call before each root's render is not made in the loop. `Validate` has an empty body, so it changes nothing and cannot fail. It is declared as `Builder.GuiBuilder.Validate`.
- Builder.GuiBuilder.Render: the C# method returns a lazy render fragment that runs the loop when Blazor invokes it. The model runs the loop eagerly and returns the page.
- Builder.GuiBuilder.Clear: `Dispose` is recorded in a ghost log, `disposed`. What disposing does is not part of this model.
- Builder.GuiBuilder.CreateWidget: button, check box, date, time and date-time pickers and label are not part of this model. Their factories build an opaque widget, and their render is the host's `renderWidget`.
- Builder.GuiBuilder.CreateGridFromSource: `IRecordSource.Where(IFilter)` is not part of this model. The records it selects are an argument.
- Builder.GuiBuilder.CreateGridFromSource: modelled with the corrected null-column handling from "## Findings". As written, this factory always throws (it passes null columns at GuiBuilder.cs:455).
- Grids.Grid.AddBoundGridColumn: modelled with the corrected type check from "## Findings" (`GridColumns.NewBound`). As written, it throws for every bound column whose type is not `object` or `System.Type`.
- Builder.GuiBuilder.CreateGridWithColumns: the free grid columns drop their titles, as the grid column's free constructor does.
- Builder.GuiBuilder.CreateRecordGrid: modelled with the corrected null-column handling from "## Findings". As written, this factory always throws.
- Builder.GuiBuilder.Render: a focus component is kept but never passed to a render, as in the source.
- Rendering mechanics are not modelled. This covers `RenderFragment` and `RenderTreeBuilder` calls, their per-fragment sequence counters, and `CreateRenderFragment`. A render is the `Descriptor` it would build; only the page's own sequence numbers are kept. A fragment that the host runs later, after the page render has returned, is a value: a grid's columns fragment that would throw is the value `Throwing(e)`, and its failure is not the page render's.
- Host collaborators have no contracts. `ExtractParameters`, `CreateChildComponents`, `ToString()`, the `IDisposable` test and `Environment.NewLine` are uninterpreted. Lemmas that need the projection to copy properties say so with `CopiesProperties`.
- The base classes `Component`, `CreatorComponent` and `BindableComponent` are not part of this model. A bindable widget keeps the arguments it hands to its base as a `Binding`.
- `AddChild`, `NotContainerError` and parentage rules are not part of this model. Children of a stack or dialog start empty and no operation adds any.
- `IComponent`, `IGuiBuilder` and `GUIParentageException` declare only. `DropDownList.cs` is an abstract base that forwards arguments. None of them is modelled.
- A grid column cannot be a builder root. The builder never creates one as a root.
- `Console.WriteLine` in the dialog's render is not modelled.
- Inline styles other than the page style, and widths, are constants of the descriptors.
- Values.Cast: only `int` and `bool` are known as value types (`IsValueType`). Null cast to any other type passes, including enums and date and time types, which are value types in C#.
- Values.IsInstance: C#'s `is` is simplified. A value is an instance of `object` and of its own runtime type; subtyping and boxing conversions are not modelled.
- Null arguments are modelled only where the source checks them (`values` in the radio list) or depends on them (the optional configuration objects, column lists, and the rows and records of the grids). Other null arguments are not modelled.
- The initial properties of a fresh configuration object are not visible. They are an argument, `defaults`.
- RadioLists.IndexOf: candidates compare structurally. `List<T>.IndexOf` uses the default equality, which is reference equality for list and dictionary candidates; a default that is a separate list with equal contents is found by the model and not by the source.
- Values.Row: a row's key list is not required to be duplicate-free and to match the keys of its cells, as a C# dictionary's keys are. The grid functions take the key list as given.
- GridBase.CellValue: the cell template takes a row, so a null row after the first in a generic grid cannot be expressed. In the source, the template dereferences that null row when the cell renders. The record grid's cells are not modelled beyond their template key.

## Findings

| source | as written | input that shows it | evidently intended | confidence | as-written member | corrected member |
|---|---|---|---|---|---|---|
| GridColumn.cs:24 | the bound constructor tests `boundColumn.GetValueType() is not T`, which asks whether the `Type` object itself is a `T`, so it throws for every column type except `object` and `System.Type` | an `int` grid column bound to an `int` column holding 30: the constructor throws the type-mismatch error | compare the declared value type with `T`, accepting a column whose declared type is `T` | high, not executed | GridColumns.NewBoundAsWritten, GridColumns.BoundTypeCheckRejectsMatches, GridColumns.IntColumnRefused | GridColumns.NewBound, GridColumns.BoundMatchesDeclaredType, Grids.Grid.AddBoundGridColumn |
| GuiBuilder.cs:417-426 | `CreateGrid(RecordList)` (line 419) and `CreateGrid(IRecordSource, IFilter)` (line 455) pass `null` as the column list to the record grid, whose base constructor runs `foreach` over it (Grid.cs:35) | any record list: the constructor throws a null-reference error before the grid exists | a null column list means no predefined columns, as the grid-column constructor already treats a null list (Grid.cs:19) | high, not executed | RecordGrids.EnumerateColumnsAsWritten, RecordGrids.NullColumnsFinding | RecordGrids.EnumerateColumns, Grids.Grid.FromColumns, Builder.GuiBuilder.CreateRecordGrid, Builder.GuiBuilder.CreateGridFromSource |
