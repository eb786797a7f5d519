/** TextBox.cs: a multi-line text box whose initial value is its paragraphs joined by
    the platform line separator. */
module TextBoxes {
  import opened Values
  import opened Parameters

  /** The total length of the parts. */
  function SumLengths(parts: seq<string>): nat
  {
    if parts == [] then 0 else |parts[0]| + SumLengths(parts[1..])
  }

  /** `string.Join(sep, parts)`: the parts in order with `sep` between each two
      neighbours, and nothing before the first or after the last. */
  function Join(sep: string, parts: seq<string>): (r: string)
    ensures parts == [] ==> r == ""
    ensures |parts| == 1 ==> r == parts[0]
    ensures parts != [] ==> |r| == SumLengths(parts) + (|parts| - 1) * |sep|
    ensures |parts| >= 2 ==> r[..|parts[0]| + |sep|] == parts[0] + sep
    ensures parts != [] ==> parts[0] <= r
  {
    if parts == [] then ""
    else if |parts| == 1 then parts[0]
    else
      assert parts[0] + sep <= parts[0] + sep + Join(sep, parts[1..]);
      parts[0] + sep + Join(sep, parts[1..])
  }

  /** Joining one more paragraph appends the separator and that paragraph. */
  lemma {:induction false} JoinSnoc(sep: string, parts: seq<string>, last: string)
    requires parts != []
    ensures Join(sep, parts + [last]) == Join(sep, parts) + sep + last
    decreases |parts|
  {
    var longer := parts + [last];
    assert longer[0] == parts[0] && longer[1..] == parts[1..] + [last];
    if |parts| == 1 {
      assert longer[1..] == [last];
    } else {
      var rest := Join(sep, parts[1..]);
      JoinSnoc(sep, parts[1..], last);
      calc {
        Join(sep, longer);
        parts[0] + sep + Join(sep, parts[1..] + [last]);
        parts[0] + sep + (rest + sep + last);
        { assert parts[0] + sep + (rest + sep + last) == (parts[0] + sep + rest) + sep + last; }
        Join(sep, parts) + sep + last;
      }
    }
  }

  class TextBox {
    var enabled: bool
    var hidden: bool
    var parent: object?
    var paragraphs: seq<string>
    const binding: Binding
    const parameters: TextParameters

    /** The initial value is the paragraphs joined by `Environment.NewLine`; there is
        no change callback. Takes the supplied parameters object, or a fresh one. */
    constructor (host: Host, paragraphs: seq<string>, parameters: TextParameters?, column: Option<Column>,
                 enabled: bool, hidden: bool, parent: object?, defaults: Attrs)
      ensures this.paragraphs == paragraphs
      ensures binding == Binding(Str(Join(host.newLine, paragraphs)), column, DefaultCallback)
      ensures parameters != null ==> this.parameters == parameters
      ensures parameters == null ==> fresh(this.parameters) && this.parameters.props == defaults
      ensures this.enabled == enabled && this.hidden == hidden && this.parent == parent
    {
      binding := Binding(Str(Join(host.newLine, paragraphs)), column, DefaultCallback);
      this.paragraphs := paragraphs;
      var p: TextParameters;
      if parameters != null {
        p := parameters;
      } else {
        p := new TextParameters(defaults);
      }
      this.parameters := p;
      this.enabled := enabled;
      this.hidden := hidden;
      this.parent := parent;
    }

    /** Rendering a text box always throws `NotImplementedException`. */
    function Render(host: Host, focus: object): (r: Result<Descriptor>)
      ensures r == Err(NotImplemented)
    {
      Err(NotImplemented)
    }
  }
}
