/**
 * The shape of the two kinds of line the exporters write for Prometheus'
 * text exposition format: `# TYPE <name> <kind>` and
 * `<name>{<label>="<value>",...} <value>`.
 */
module TextFormat {
  import opened Wrappers
  import opened GoStrings
  import opened GoNumbers

  /** One label pair, its value copied verbatim between double quotes. */
  function Label(name: string, value: string): string
  {
    name + "=\"" + value + "\""
  }

  function Labels(pairs: seq<(string, string)>): (r: seq<string>)
    ensures |r| == |pairs|
    ensures forall i :: 0 <= i < |pairs| ==> r[i] == Label(pairs[i].0, pairs[i].1)
  {
    if pairs == [] then [] else [Label(pairs[0].0, pairs[0].1)] + Labels(pairs[1..])
  }

  /** A label set: the pairs between braces, separated by commas. */
  function LabelSet(pairs: seq<(string, string)>): string
  {
    "{" + Join(Labels(pairs), ",") + "}"
  }

  /** A label set of three pairs, written out. */
  lemma LabelSetOfThree(n1: string, v1: string, n2: string, v2: string, n3: string, v3: string)
    ensures LabelSet([(n1, v1), (n2, v2), (n3, v3)])
      == "{" + Label(n1, v1) + "," + Label(n2, v2) + "," + Label(n3, v3) + "}"
  {
    var ls := Labels([(n1, v1), (n2, v2), (n3, v3)]);
    assert ls == [Label(n1, v1)] + [Label(n2, v2), Label(n3, v3)];
    JoinPrepend(Label(n1, v1), [Label(n2, v2), Label(n3, v3)], ",");
    JoinPrepend(Label(n2, v2), [Label(n3, v3)], ",");
  }

  /** A sample line: metric name, label set, one space, value. */
  function SampleText(name: string, pairs: seq<(string, string)>, value: string): string
  {
    name + LabelSet(pairs) + " " + value
  }

  /** A type declaration line. */
  function TypeText(name: string, kind: string): string
  {
    "# TYPE " + name + " " + kind
  }

  /** A sample line with three labels, written out piece by piece. */
  function SampleTextOfThree(name: string, n1: string, v1: string, n2: string, v2: string, n3: string, v3: string, value: string): string
  {
    name + "{" + n1 + "=\"" + v1 + "\"," + n2 + "=\"" + v2 + "\"," + n3 + "=\"" + v3 + "\"}" + " " + value
  }

  /** The three label pairs written out are the label set of those pairs. */
  lemma SampleTextOfThreeIs(name: string, n1: string, v1: string, n2: string, v2: string, n3: string, v3: string, value: string)
    ensures SampleTextOfThree(name, n1, v1, n2, v2, n3, v3, value) == SampleText(name, [(n1, v1), (n2, v2), (n3, v3)], value)
  {
    LabelSetOfThree(n1, v1, n2, v2, n3, v3);
  }

  /**
   * A reader that takes the text after the last space of a sample line gets the
   * value back, for the values `%g` writes as plain digits.
   */
  lemma SampleTextValue(name: string, pairs: seq<(string, string)>, value: Float)
    requires value.magnitude < 1000000
    ensures var line := SampleText(name, pairs, FormatG(value)); var i := LastIndex(line, ' ');
      0 <= i && ParseValue(line[i + 1..]) == Some(value)
  {
    var g := FormatG(value);
    var line := SampleText(name, pairs, g);
    var front := name + LabelSet(pairs);
    FormatGHasNoSpace(value);
    assert line == front + [' '] + g;
    LastIndexBefore(front, ' ', g);
    assert line[|front| + 1..] == g;
    FormatGRoundTrip(value);
  }

  /** A reader that takes the text before the first `{` of a sample line gets the metric name back. */
  lemma SampleTextName(name: string, pairs: seq<(string, string)>, value: string)
    requires '{' !in name
    ensures var line := SampleText(name, pairs, value); var j := IndexOf(line, '{');
      0 <= j && line[..j] == name
  {
    var line := SampleText(name, pairs, value);
    var rest := Join(Labels(pairs), ",") + "}" + " " + value;
    assert line == name + ['{'] + rest;
    IndexOfAfter(name, '{', rest);
    assert line[..|name|] == name;
  }

  /** A type line splits at its spaces into `#`, `TYPE`, the name and the kind. */
  lemma TypeTextFields(name: string, kind: string)
    requires ' ' !in name && ' ' !in kind
    ensures Split(TypeText(name, kind), ' ') == ["#", "TYPE", name, kind]
  {
    var parts := ["#", "TYPE", name, kind];
    assert Join(parts[3..], " ") == kind;
    assert parts[2..][1..] == parts[3..];
    assert Join(parts[2..], " ") == name + " " + kind;
    assert parts[1..][1..] == parts[2..];
    assert Join(parts, " ") == TypeText(name, kind);
    SplitJoin(parts, ' ');
  }
}
