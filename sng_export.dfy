/**
 * The fuller exporter (sng-export.go): it answers a scrape with three health
 * gauges for the control-socket stages, then one sample per exported record,
 * each metric name declared once with a `# TYPE` line.
 */
module SngExport {
  import opened GoStrings
  import opened GoNumbers
  import opened SngRecord
  import opened TextFormat
  import opened MetricNames

  /* ---------------------------------------------------------------------- */
  /* Client address, as written to the access log                           */
  /* ---------------------------------------------------------------------- */

  /**
   * `getIPAddr`: the address without its port, that is, everything before the
   * last `:`; a string without any `:` comes back unchanged.
   */
  function GetIPAddr(s: string): (r: string)
    ensures ':' !in s ==> r == s
    ensures ':' in s ==> |r| < |s| && r == s[..|r|] && s[|r|] == ':' && ':' !in s[|r| + 1..]
  {
    var index := LastIndex(s, ':');
    if index == -1 then s else s[..index]
  }

  /** `host:port` gives back the host, whatever colons the host itself holds. */
  lemma GetIPAddrOfHostPort(host: string, port: string)
    requires ':' !in port
    ensures GetIPAddr(host + ":" + port) == host
  {
    LastIndexBefore(host, ':', port);
    assert (host + ":" + port)[..|host|] == host;
  }

  /** The first element of a comma-separated list: everything before the first `,`. */
  function FirstElement(s: string): (r: string)
    ensures |r| <= |s| && ',' !in r && r == s[..|r|]
    ensures |r| < |s| ==> s[|r|] == ','
    ensures |r| == |s| <==> ',' !in s
  {
    var i := IndexOf(s, ',');
    if i < 0 then s else s[..i]
  }

  /** The loop of `getClientIP` that trims every element of the address list in place. */
  method TrimEach(ipAddrs: array<string>)
    modifies ipAddrs
    ensures forall j :: 0 <= j < ipAddrs.Length ==> ipAddrs[j] == TrimSpace(old(ipAddrs[j]))
  {
    for i := 0 to ipAddrs.Length
      invariant forall j :: 0 <= j < i ==> ipAddrs[j] == TrimSpace(old(ipAddrs[j]))
      invariant forall j :: i <= j < ipAddrs.Length ==> ipAddrs[j] == old(ipAddrs[j])
    {
      ipAddrs[i] := TrimSpace(ipAddrs[i]);
    }
  }

  /**
   * `getClientIP`: a non-empty X-Forwarded-For wins, and gives its first
   * comma-separated element without surrounding white space; otherwise a
   * non-empty X-Real-Ip is returned as it is; with both empty, the remote
   * address without its port.
   */
  method GetClientIP(xRealIP: string, xForwardedFor: string, remoteAddr: string) returns (ip: string)
    ensures xRealIP == "" && xForwardedFor == "" ==> ip == GetIPAddr(remoteAddr)
    ensures xForwardedFor != "" ==> ip == TrimSpace(FirstElement(xForwardedFor))
    ensures xForwardedFor == "" && xRealIP != "" ==> ip == xRealIP
  {
    if xRealIP == "" && xForwardedFor == "" {
      return GetIPAddr(remoteAddr);
    }
    if xForwardedFor != "" {
      var parts := Split(xForwardedFor, ',');
      SplitHead(xForwardedFor, ',');
      var ipAddrs := new string[|parts|](k requires 0 <= k < |parts| => parts[k]);
      TrimEach(ipAddrs);
      return ipAddrs[0];
    }
    return xRealIP;
  }

  /* ---------------------------------------------------------------------- */
  /* Names and lines                                                        */
  /* ---------------------------------------------------------------------- */

  /** `CreateTypeLine`: the words `# TYPE`, the name and the type, joined by spaces. */
  function CreateTypeLine(metricName: string, metricType: string): string
  {
    Join(["# TYPE", metricName, metricType], " ")
  }

  /** The type line is the exposition format's type declaration. */
  lemma TypeLineText(metricName: string, metricType: string)
    ensures CreateTypeLine(metricName, metricType) == TypeText(metricName, metricType)
  {
    JoinPrepend(metricName, [metricType], " ");
    JoinPrepend("# TYPE", [metricName, metricType], " ");
  }

  /**
   * `CreateMetricLine`: a sample line whose labels are `id`, `sng_instance` and
   * `state`, in that order, holding the record's fields verbatim (nothing is
   * escaped), followed by the value as `%g` writes it.
   */
  function CreateMetricLine(metricName: string, sng: SNGData): string
  {
    var num := FormatG(sng.value);
    // strings.Join with an empty separator: the source's literal pieces
    // "{id=\"", "\",sng_instance=\"", "\",state=\"" and "\"} " one after the other
    SampleTextOfThree(metricName, "id", sng.id, "sng_instance", sng.instance, "state", sng.state, num)
  }

  /** The sample line is the exposition format's sample: the name, the three labels and the value. */
  lemma MetricLineText(metricName: string, sng: SNGData)
    ensures CreateMetricLine(metricName, sng) ==
      SampleText(metricName, [("id", sng.id), ("sng_instance", sng.instance), ("state", sng.state)], FormatG(sng.value))
  {
    SampleTextOfThreeIs(metricName, "id", sng.id, "sng_instance", sng.instance, "state", sng.state, FormatG(sng.value));
  }

  /**
   * `CreateMetricName`: `sng`, the object type and the stat type joined with
   * `_`, with `_total` added for a counter kind and nothing added for a gauge
   * kind, every `.` then replaced by `_`; a kind starting with neither letter
   * gives the empty name. The kind must not be empty (`st[0:1]`).
   */
  function CreateMetricName(m: SNGData, st: string): (name: string)
    requires |st| >= 1
    ensures '.' !in name
  {
    var slice := if st[0..1] == "c" then ["sng", m.objectType, m.statType, "total"]
      else if st[0..1] == "g" then ["sng", m.objectType, m.statType]
      else [];
    ReplaceAll(Join(slice, "_"), '.', '_')
  }

  /**
   * The name of a counter is `sng_`, the object type, `_`, the stat type and
   * `_total`, with each `.` of the fields replaced by `_`; a gauge's has no
   * `_total`; any other kind gives the empty name. No name holds a `.`.
   */
  lemma MetricNameShape(m: SNGData, st: string)
    requires |st| >= 1
    ensures var name := CreateMetricName(m, st);
      && (st[0] == 'c' ==> name == "sng_" + ReplaceAll(m.objectType, '.', '_') + "_" + ReplaceAll(m.statType, '.', '_') + "_total")
      && (st[0] == 'g' ==> name == "sng_" + ReplaceAll(m.objectType, '.', '_') + "_" + ReplaceAll(m.statType, '.', '_'))
      && (st[0] != 'c' && st[0] != 'g' ==> name == "")
      && '.' !in name
  {
    assert st[0..1] == [st[0]];
    JoinedName(m.objectType, m.statType);
    if st[0] == 'c' {
      NameReplace(m, "_total");
    } else if st[0] == 'g' {
      NameReplace(m, "");
    }
  }

  /** The name depends on the object type, the stat type and the kind only. */
  lemma NameDeterminedByTypes(m1: SNGData, m2: SNGData, st: string)
    requires |st| >= 1 && m1.objectType == m2.objectType && m1.statType == m2.statType
    ensures CreateMetricName(m1, st) == CreateMetricName(m2, st)
  {
  }

  /**
   * The classifier: stat types starting `co`, `me` or `qu` (connections,
   * memory usage, queued) are gauges, all others counters.
   */
  function MetricKindOf(statType: string): (kind: string)
    requires |statType| >= 2
    ensures kind == Gauge || kind == Counter
    ensures kind == Gauge <==> statType[..2] == "co" || statType[..2] == "me" || statType[..2] == "qu"
  {
    var prefix := statType[0..2];
    if prefix == "co" || prefix == "me" || prefix == "qu" then Gauge else Counter
  }

  /* ---------------------------------------------------------------------- */
  /* One data line                                                          */
  /* ---------------------------------------------------------------------- */

  /** A sample to export: its metric name, its kind and its sample line. */
  datatype Sample = Sample(name: string, kind: string, text: string)

  /** What the read loop does with one line. */
  datatype Outcome =
    | Emit(sample: Sample)  // a kept record: one sample
    | Skip                  // an unparsable value, or state `o` or `d`
    | Panic                 // an index out of range
    | Stop                  // the end of the reply

  /** The sample of a kept record. */
  function SampleOf(d: SNGData): Sample
    requires |d.statType| >= 2
  {
    var kind := MetricKindOf(d.statType);
    var name := CreateMetricName(d, kind);
    Sample(name, kind, CreateMetricLine(name, d))
  }

  /**
   * One pass of the loop body: stop at a line starting with `.`; index past the
   * fields of a line with fewer than six; skip a value that does not parse and
   * a record in state `o` or `d`; index past a stat type shorter than two
   * characters; otherwise export the record.
   */
  function Step(line: string): (o: Outcome)
    requires IsReadLine(line)
    ensures o.Stop? <==> IsTerminator(line)
    ensures !IsTerminator(line) && !HasSixFields(line) ==> o.Panic?
    ensures o.Skip? || o.Emit? ==> HasSixFields(line)
    ensures !IsTerminator(line) && HasSixFields(line) && ParseLine(line).Err? ==> o.Skip?
    ensures o.Emit? ==> ParseLine(line).Ok? && Kept(ParseLine(line).value) && o.sample.kind in {Gauge, Counter}
  {
    if IsTerminator(line) then Stop
    else if !HasSixFields(line) then Panic
    else
      match ParseLine(line)
      case Err(_) => Skip
      case Ok(d) => RecordStep(d)
  }

  /** The loop body on a parsed record: skip it in state `o` or `d`, panic on a short stat type, else export it. */
  function RecordStep(d: SNGData): (o: Outcome)
    ensures !o.Stop?
    ensures o.Skip? <==> !Kept(d)
    ensures o.Emit? ==>
      && |d.statType| >= 2 && o.sample.kind in {Gauge, Counter}
      && o.sample.name == CreateMetricName(d, o.sample.kind) && '.' !in o.sample.name
  {
    if !Kept(d) then Skip
    else if |d.statType| < 2 then Panic
    else Emit(SampleOf(d))
  }

  /** An outcome that ends the loop, normally or by a panic. */
  predicate Halts(o: Outcome)
  {
    o.Stop? || o.Panic?
  }

  /** What the loop body does with each line. */
  function Outcomes(lines: seq<string>): (os: seq<Outcome>)
    requires AllReadLines(lines)
    ensures |os| == |lines|
  {
    if lines == [] then [] else Outcomes(lines[..|lines| - 1]) + [Step(lines[|lines| - 1])]
  }

  lemma {:induction false} OutcomeAt(lines: seq<string>, k: nat)
    requires AllReadLines(lines) && k < |lines|
    ensures Outcomes(lines)[k] == Step(lines[k])
    decreases |lines|
  {
    if k < |lines| - 1 {
      var init := lines[..|lines| - 1];
      assert init[k] == lines[k];
      OutcomeAt(init, k);
    }
  }

  /** A record line the loop reads: dropped in state `o` or `d`, exported otherwise. */
  lemma StepOfRecord(d: SNGData)
    requires Writable(d) && (d.objectType == [] || d.objectType[0] != '.')
    ensures IsReadLine(RecordLine(d))
    ensures !Kept(d) ==> Step(RecordLine(d)) == Skip
    ensures Kept(d) && |d.statType| < 2 ==> Step(RecordLine(d)) == Panic
    ensures Kept(d) && |d.statType| >= 2 ==> Step(RecordLine(d)) == Emit(SampleOf(d))
  {
    var line := RecordLine(d);
    ParseRecordLine(d);
    RecordLineStart(d);
    assert !IsTerminator(line);
    var r := ParseLine(line);
    assert r == Ok(d);
  }

  /**
   * A line whose text holds fewer than five `;` makes the loop panic; one
   * holding more than five is skipped, its sixth field not being a number.
   */
  lemma StepOfFieldCount(line: string)
    requires IsReadLine(line) && !IsTerminator(line)
    ensures Count(TrimSpace(line), ';') < 5 ==> Step(line) == Panic
    ensures Count(TrimSpace(line), ';') > 5 ==> Step(line) == Skip
  {
    FieldCount(line);
    if Count(TrimSpace(line), ';') > 5 {
      ExtraSeparator(line);
    }
  }

  /** The samples of some outcomes, in order. */
  function Emitted(os: seq<Outcome>): seq<Sample>
  {
    if os == [] then []
    else
      var o := os[|os| - 1];
      Emitted(os[..|os| - 1]) + (if o.Emit? then [o.sample] else [])
  }

  /** The samples of a run of outcomes are those of each part, one after the other. */
  lemma {:induction false} EmittedAppend(a: seq<Outcome>, b: seq<Outcome>)
    ensures Emitted(a + b) == Emitted(a) + Emitted(b)
    decreases |b|
  {
    if b == [] {
      assert a + b == a;
    } else {
      var init := b[..|b| - 1];
      assert (a + b)[..|a + b| - 1] == a + init;
      EmittedAppend(a, init);
    }
  }

  /** The index of the first outcome that ends the loop, or the number of outcomes. */
  function FirstHalt(os: seq<Outcome>): (e: nat)
    ensures e <= |os|
    ensures forall j :: 0 <= j < e ==> !Halts(os[j])
    ensures e < |os| ==> Halts(os[e])
  {
    if os == [] then 0
    else if Halts(os[0]) then 0
    else 1 + FirstHalt(os[1..])
  }

  lemma PassesHere(os: seq<Outcome>, i: nat)
    requires i < |os| && !Halts(os[i])
    ensures FirstHalt(os[i..]) == 1 + FirstHalt(os[i + 1..])
  {
    assert os[i..][1..] == os[i + 1..];
  }

  lemma HaltsHere(os: seq<Outcome>, i: nat)
    requires i < |os| && Halts(os[i])
    ensures FirstHalt(os[i..]) == 0
  {
  }

  lemma EmittedNext(os: seq<Outcome>, i: nat)
    requires i < |os|
    ensures Emitted(os[..i + 1]) == Emitted(os[..i]) + (if os[i].Emit? then [os[i].sample] else [])
  {
    assert os[..i + 1][..i] == os[..i];
  }

  /** The samples a scrape exports: those of the lines before the first that ends the loop. */
  function ScrapedSamples(lines: seq<string>): seq<Sample>
    requires AllReadLines(lines)
  {
    var os := Outcomes(lines);
    Emitted(os[..FirstHalt(os)])
  }

  /* ---------------------------------------------------------------------- */
  /* The exposition: TYPE lines and samples                                 */
  /* ---------------------------------------------------------------------- */

  datatype Line = TypeDecl(name: string, kind: string) | SampleLine(sample: Sample)

  function LineText(l: Line): string
  {
    match l
    case TypeDecl(name, kind) => CreateTypeLine(name, kind)
    case SampleLine(s) => s.text
  }

  function Texts(ls: seq<Line>): (ts: seq<string>)
    ensures |ts| == |ls|
  {
    if ls == [] then [] else Texts(ls[..|ls| - 1]) + [LineText(ls[|ls| - 1])]
  }

  /** The body is written line by line: its `k`th entry is the text of the `k`th line. */
  lemma {:induction false} TextsAt(ls: seq<Line>, k: nat)
    requires k < |ls|
    ensures Texts(ls)[k] == LineText(ls[k])
    decreases |ls|
  {
    var init := ls[..|ls| - 1];
    if k < |init| {
      TextsAt(init, k);
      assert init[k] == ls[k];
    }
  }

  /** The metric names of some samples. */
  function Names(ss: seq<Sample>): set<string>
  {
    if ss == [] then {} else Names(ss[..|ss| - 1]) + {ss[|ss| - 1].name}
  }

  /**
   * The lines written for some samples: each sample line, preceded by a type
   * line for its name when no earlier sample had that name (the `typeName` map).
   */
  function Exposition(ss: seq<Sample>): seq<Line>
  {
    if ss == [] then []
    else
      var init, s := ss[..|ss| - 1], ss[|ss| - 1];
      Exposition(init) + (if s.name in Names(init) then [] else [TypeDecl(s.name, s.kind)]) + [SampleLine(s)]
  }

  /** One line per sample and one type line per distinct name. */
  lemma {:induction false} ExpositionLength(ss: seq<Sample>)
    ensures |Exposition(ss)| == |ss| + |Names(ss)|
    decreases |ss|
  {
    if ss != [] {
      var init, s := ss[..|ss| - 1], ss[|ss| - 1];
      ExpositionLength(init);
      NamesGrow(Names(init), s.name);
    }
  }

  /** Adding a name to a set of names adds one to its size exactly when the name is new. */
  lemma NamesGrow(names: set<string>, name: string)
    ensures |names + {name}| == |names| + if name in names then 0 else 1
  {
    if name in names {
      assert names + {name} == names;
    }
  }

  /** The samples among some lines, in order. */
  function SamplesIn(ls: seq<Line>): seq<Sample>
  {
    if ls == [] then []
    else SamplesIn(ls[..|ls| - 1]) + (if ls[|ls| - 1].SampleLine? then [ls[|ls| - 1].sample] else [])
  }

  /** The names that some lines declare. */
  function Declared(ls: seq<Line>): set<string>
  {
    if ls == [] then {}
    else Declared(ls[..|ls| - 1]) + (if ls[|ls| - 1].TypeDecl? then {ls[|ls| - 1].name} else {})
  }

  /** How many of some lines declare `name`. */
  function DeclCount(ls: seq<Line>, name: string): nat
  {
    if ls == [] then 0
    else DeclCount(ls[..|ls| - 1], name) + (if ls[|ls| - 1].TypeDecl? && ls[|ls| - 1].name == name then 1 else 0)
  }

  lemma {:induction false} LinesAppend(a: seq<Line>, b: seq<Line>, name: string)
    ensures SamplesIn(a + b) == SamplesIn(a) + SamplesIn(b)
    ensures Declared(a + b) == Declared(a) + Declared(b)
    ensures DeclCount(a + b, name) == DeclCount(a, name) + DeclCount(b, name)
    decreases |b|
  {
    if b == [] {
      assert a + b == a;
    } else {
      var init := b[..|b| - 1];
      assert (a + b)[..|a + b| - 1] == a + init;
      LinesAppend(a, init, name);
    }
  }

  /** The step of Exposition for one more sample: the pieces it appends. */
  function Appended(init: seq<Sample>, s: Sample): seq<Line>
  {
    (if s.name in Names(init) then [] else [TypeDecl(s.name, s.kind)]) + [SampleLine(s)]
  }

  lemma ExpositionSnoc(init: seq<Sample>, s: Sample)
    ensures Exposition(init + [s]) == Exposition(init) + Appended(init, s)
    ensures Names(init + [s]) == Names(init) + {s.name}
  {
    assert (init + [s])[..|init|] == init;
  }

  /** What the lines appended for one more sample hold: that sample, and a declaration of its name if new. */
  lemma AppendedLines(init: seq<Sample>, s: Sample, name: string)
    ensures SamplesIn(Appended(init, s)) == [s]
    ensures Declared(Appended(init, s)) == if s.name in Names(init) then {} else {s.name}
    ensures DeclCount(Appended(init, s), name) == if s.name !in Names(init) && s.name == name then 1 else 0
  {
    var mid := if s.name in Names(init) then [] else [TypeDecl(s.name, s.kind)];
    assert Appended(init, s) == mid + [SampleLine(s)];
    LinesAppend(mid, [SampleLine(s)], name);
    assert [SampleLine(s)][..0] == [];
    if mid != [] {
      assert mid[..0] == [];
    }
  }

  /** Every sample is written, once and in order. */
  lemma {:induction false} ExpositionSamples(ss: seq<Sample>)
    ensures SamplesIn(Exposition(ss)) == ss
    decreases |ss|
  {
    if ss != [] {
      var init, s := ss[..|ss| - 1], ss[|ss| - 1];
      assert Exposition(ss) == Exposition(init) + Appended(init, s);
      ExpositionSamples(init);
      LinesAppend(Exposition(init), Appended(init, s), "");
      AppendedLines(init, s, "");
      assert init + [s] == ss;
    }
  }

  /** The names declared are exactly the names of the samples. */
  lemma {:induction false} ExpositionDeclared(ss: seq<Sample>)
    ensures Declared(Exposition(ss)) == Names(ss)
    decreases |ss|
  {
    if ss != [] {
      var init, s := ss[..|ss| - 1], ss[|ss| - 1];
      assert Exposition(ss) == Exposition(init) + Appended(init, s);
      ExpositionDeclared(init);
      LinesAppend(Exposition(init), Appended(init, s), "");
      AppendedLines(init, s, "");
    }
  }

  /** A metric name is declared exactly once when some sample has it, and never otherwise. */
  lemma {:induction false} DeclOnce(ss: seq<Sample>, name: string)
    ensures DeclCount(Exposition(ss), name) == if name in Names(ss) then 1 else 0
    decreases |ss|
  {
    if ss != [] {
      var init, s := ss[..|ss| - 1], ss[|ss| - 1];
      assert Exposition(ss) == Exposition(init) + Appended(init, s);
      DeclOnce(init, name);
      LinesAppend(Exposition(init), Appended(init, s), name);
      AppendedLines(init, s, name);
    }
  }

  /**
   * A type line comes immediately before a sample line of the same name and kind,
   * and before it no sample of that name was written: the declaration precedes
   * the name's first sample.
   */
  lemma {:induction false} DeclBeforeFirstSample(ss: seq<Sample>)
    ensures var ex := Exposition(ss);
      forall k :: 0 <= k < |ex| && ex[k].TypeDecl? ==>
        && k + 1 < |ex| && ex[k + 1].SampleLine?
        && ex[k + 1].sample.name == ex[k].name && ex[k + 1].sample.kind == ex[k].kind
        && ex[k].name !in Names(SamplesIn(ex[..k]))
    decreases |ss|
  {
    if ss != [] {
      var init, s := ss[..|ss| - 1], ss[|ss| - 1];
      assert ss == init + [s];
      ExpositionSnoc(init, s);
      DeclBeforeFirstSample(init);
      var e := Exposition(init);
      var ex := Exposition(ss);
      var mid := if s.name in Names(init) then [] else [TypeDecl(s.name, s.kind)];
      assert ex == e + mid + [SampleLine(s)];
      forall k | 0 <= k < |ex| && ex[k].TypeDecl?
        ensures && k + 1 < |ex| && ex[k + 1].SampleLine?
          && ex[k + 1].sample.name == ex[k].name && ex[k + 1].sample.kind == ex[k].kind
          && ex[k].name !in Names(SamplesIn(ex[..k]))
      {
        if k < |e| {
          assert ex[k] == e[k] && ex[k + 1] == e[k + 1];
          assert ex[..k] == e[..k];
        } else {
          assert k == |e| && mid != [];
          assert ex[..k] == e;
          ExpositionSamples(init);
        }
      }
    }
  }

  /** Every sample line comes after the type line of its name. */
  lemma {:induction false} SampleAfterDecl(ss: seq<Sample>)
    ensures var ex := Exposition(ss);
      forall k :: 0 <= k < |ex| && ex[k].SampleLine? ==> ex[k].sample.name in Declared(ex[..k])
    decreases |ss|
  {
    if ss != [] {
      var init, s := ss[..|ss| - 1], ss[|ss| - 1];
      assert ss == init + [s];
      ExpositionSnoc(init, s);
      SampleAfterDecl(init);
      var e := Exposition(init);
      var ex := Exposition(ss);
      var mid := if s.name in Names(init) then [] else [TypeDecl(s.name, s.kind)];
      assert ex == e + mid + [SampleLine(s)];
      forall k | 0 <= k < |ex| && ex[k].SampleLine?
        ensures ex[k].sample.name in Declared(ex[..k])
      {
        if k < |e| {
          assert ex[k] == e[k];
          assert ex[..k] == e[..k];
        } else {
          assert k == |ex| - 1;
          assert ex[..k] == e + mid;
          ExpositionDeclared(init);
          LinesAppend(e, mid, "");
          if mid != [] {
            assert mid[..0] == [];
          }
        }
      }
    }
  }

  /** Every line the exposition's texts hold, in order: helper for appending one line. */
  lemma TextsOfOne(a: Line)
    ensures Texts([a]) == [LineText(a)]
  {
  }

  lemma TextsOfTwo(a: Line, b: Line)
    ensures Texts([a, b]) == [LineText(a), LineText(b)]
  {
    assert [a, b][..1] == [a];
  }

  /** The text of the exposition of one more sample: its type line when its name is new, then its sample line. */
  lemma ExpositionText(before: seq<Sample>, s: Sample)
    ensures Texts(Exposition(before + [s])) ==
      Texts(Exposition(before)) + (if s.name in Names(before) then [] else [CreateTypeLine(s.name, s.kind)]) + [s.text]
    ensures Names(before + [s]) == Names(before) + {s.name}
  {
    ExpositionSnoc(before, s);
    TextsAppend(Exposition(before), Appended(before, s));
    AppendedText(before, s);
  }

  /** The texts of the lines appended for one more sample. */
  lemma AppendedText(before: seq<Sample>, s: Sample)
    ensures Texts(Appended(before, s)) == (if s.name in Names(before) then [] else [CreateTypeLine(s.name, s.kind)]) + [s.text]
  {
    if s.name in Names(before) {
      assert Appended(before, s) == [SampleLine(s)];
      TextsOfOne(SampleLine(s));
    } else {
      assert Appended(before, s) == [TypeDecl(s.name, s.kind), SampleLine(s)];
      TextsOfTwo(TypeDecl(s.name, s.kind), SampleLine(s));
    }
  }

  lemma {:induction false} TextsAppend(a: seq<Line>, b: seq<Line>)
    ensures Texts(a + b) == Texts(a) + Texts(b)
    decreases |b|
  {
    if b == [] {
      assert a + b == a;
    } else {
      var init := b[..|b| - 1];
      assert (a + b)[..|a + b| - 1] == a + init;
      TextsAppend(a, init);
    }
  }

  /* ---------------------------------------------------------------------- */
  /* One scrape                                                             */
  /* ---------------------------------------------------------------------- */

  /** The health lines: a type line and a status sample per control-socket stage. */
  const DialType := "# TYPE sng_dial_state gauge"
  const DialStatus := "sng_net_dial{id=\"status_metric\"}"
  /** The write stage declares `sng_dial_state` again, as the source does. */
  const WriteType := "# TYPE sng_dial_state gauge"
  const WriteStatus := "sng_socket_write{id=\"status_metric\"}"
  const ReadType := "# TYPE sng_buffer_state gauge"
  const ReadStatus := "sng_buffer_read{id=\"status_metric\"}"

  /** The health lines of a scrape whose three stages all succeeded. */
  const Healthy: seq<string> := [DialType, DialStatus + " 1", WriteType, WriteStatus + " 1", ReadType, ReadStatus + " 1"]

  /** How a scrape ended. */
  datatype Scrape = Done | DialFailed | WriteFailed | ReadFailed | Panicked

  /** The characters written, not counting the newline after each line. */
  function TotalLength(out: seq<string>): nat
  {
    if out == [] then 0 else TotalLength(out[..|out| - 1]) + |out[|out| - 1]|
  }

  lemma StageLength(out: seq<string>, typeText: string, statusLine: string)
    ensures TotalLength(out + [typeText] + [statusLine]) == TotalLength(out) + |typeText| + |statusLine|
  {
    assert (out + [typeText] + [statusLine])[..|out| + 1] == out + [typeText];
    assert (out + [typeText])[..|out|] == out;
  }

  lemma {:induction false} TotalLengthAppend(a: seq<string>, b: seq<string>)
    ensures TotalLength(a + b) == TotalLength(a) + TotalLength(b)
    decreases |b|
  {
    if b == [] {
      assert a + b == a;
    } else {
      assert (a + b)[..|a + b| - 1] == a + b[..|b| - 1];
      TotalLengthAppend(a, b[..|b| - 1]);
    }
  }

  /** Appends the lines of a sample, with `typeText` its type line, to the body written so far. */
  method AppendSample(typeName: map<string, int>, body: seq<string>, bodyBytes: int, ghost before: seq<Sample>, sample: Sample, typeText: string)
    returns (typeName': map<string, int>, body': seq<string>, bodyBytes': int)
    requires body == Texts(Exposition(before)) && typeName.Keys == Names(before) && bodyBytes == TotalLength(body)
    requires typeText == CreateTypeLine(sample.name, sample.kind)
    ensures body' == Texts(Exposition(before + [sample]))
    ensures typeName'.Keys == Names(before + [sample])
    ensures bodyBytes' == TotalLength(body')
  {
    ExpositionText(before, sample);
    typeName', body', bodyBytes' := typeName, body, bodyBytes;
    if sample.name !in typeName {
      typeName' := typeName[sample.name := 1];
      TotalLengthAppend(body', [typeText]);
      body' := body' + [typeText];
      bodyBytes' := bodyBytes' + |typeText|;
    }
    TotalLengthAppend(body', [sample.text]);
    body' := body' + [sample.text];
    bodyBytes' := bodyBytes' + |sample.text|;
  }

  /**
   * The tests of the read loop for one line, in the source's order: the end
   * of the reply, `parseLine` (and its panic), then those on the record.
   */
  method ReadStep(line: string) returns (o: Outcome)
    requires IsReadLine(line)
    ensures o == Step(line)
  {
    if line[0] == '.' {
      return Stop;
    }
    if !HasSixFields(line) {
      return Panic;
    }
    var parsed := ParseLine(line);
    if parsed.Err? {
      return Skip;
    }
    o := KeepStep(parsed.value);
  }

  /**
   * A parsed record: the state filter, the classifier's `statType[0:2]`, and
   * the kept record's name, kind and sample line.
   */
  method KeepStep(sngData: SNGData) returns (o: Outcome)
    ensures o == RecordStep(sngData)
  {
    if sngData.state == "o" || sngData.state == "d" {
      return Skip;
    }
    if |sngData.statType| < 2 {
      return Panic;
    }
    var metricType := MetricKindOf(sngData.statType);
    var metricName := CreateMetricName(sngData, metricType);
    var metricText := CreateMetricLine(metricName, sngData);
    return Emit(Sample(metricName, metricType, metricText));
  }

  /**
   * The body of the read loop of `GetSNGStats` for one line: whether the loop
   * ends here (`halt`, and `panicked` when it ends by a panic), and the body
   * written so far with the lines of this record appended when it is kept.
   */
  method ReadLine(line: string, typeName: map<string, int>, body: seq<string>, bodyBytes: int, ghost before: seq<Sample>)
    returns (typeName': map<string, int>, body': seq<string>, bodyBytes': int, halt: bool, panicked: bool)
    requires IsReadLine(line)
    requires body == Texts(Exposition(before)) && typeName.Keys == Names(before) && bodyBytes == TotalLength(body)
    ensures halt == Halts(Step(line)) && panicked == Step(line).Panic?
    ensures Step(line).Emit? ==>
      var now := before + [Step(line).sample];
      body' == Texts(Exposition(now)) && typeName'.Keys == Names(now) && bodyBytes' == TotalLength(body')
    ensures !Step(line).Emit? ==> typeName' == typeName && body' == body && bodyBytes' == bodyBytes
  {
    typeName', body', bodyBytes' := typeName, body, bodyBytes;
    var o := ReadStep(line);
    halt, panicked := o.Stop? || o.Panic?, o.Panic?;
    if o.Emit? {
      var typeText := CreateTypeLine(o.sample.name, o.sample.kind);
      typeName', body', bodyBytes' := AppendSample(typeName, body, bodyBytes, before, o.sample, typeText);
    }
  }

  /**
   * The read loop of `GetSNGStats` (after the banner line): the lines written
   * for the records read before the first line that ends the loop, their length
   * without newlines, and whether that line made the loop panic rather than
   * being the `.` terminator. The `typeName` map holds the names declared so
   * far, so that each name's type line is written only once.
   */
  method ExportLines(lines: seq<string>) returns (body: seq<string>, bodyBytes: int, panicked: bool)
    requires AllReadLines(lines)
    ensures body == Texts(Exposition(ScrapedSamples(lines)))
    ensures var os := Outcomes(lines); panicked <==> FirstHalt(os) < |lines| && os[FirstHalt(os)].Panic?
    ensures bodyBytes == TotalLength(body)
  {
    ghost var os := Outcomes(lines);
    var typeName: map<string, int> := map[];
    body, bodyBytes, panicked := [], 0, false;
    var i := 0;
    while i < |lines|
      invariant 0 <= i <= |lines|
      invariant FirstHalt(os) == i + FirstHalt(os[i..])
      invariant body == Texts(Exposition(Emitted(os[..i])))
      invariant typeName.Keys == Names(Emitted(os[..i]))
      invariant bodyBytes == TotalLength(body)
      invariant !panicked
    {
      OutcomeAt(lines, i);
      EmittedNext(os, i);
      var halt;
      typeName, body, bodyBytes, halt, panicked := ReadLine(lines[i], typeName, body, bodyBytes, Emitted(os[..i]));
      if halt {
        HaltsHere(os, i);
        break;
      }
      if os[i].Emit? {
        assert Emitted(os[..i + 1]) == Emitted(os[..i]) + [os[i].sample];
      } else {
        assert Emitted(os[..i + 1]) == Emitted(os[..i]);
      }
      PassesHere(os, i);
      i := i + 1;
    }
    if i == |lines| {
      assert os[i..] == [];
    }
    assert FirstHalt(os) == i;
    assert ScrapedSamples(lines) == Emitted(os[..i]);
  }

  /**
   * `GetSNGStats` with the control socket replaced by its observable behaviour:
   * whether dialling, writing `STATS` and reading the banner line succeed, and
   * the lines read after the banner (the end of `lines` is the end of the
   * stream). The output is the lines written to the response, without their
   * newlines.
   *
   * A failed stage ends the scrape after its status sample `0`, and no later
   * stage is attempted. Otherwise the three health gauges are followed by the
   * exposition of the records read before the first line that ends the loop;
   * the scrape panics when that line is not the `.` terminator. `txBytes` is
   * the length of the output without the newlines.
   */
  method GetSNGStats(dialOk: bool, writeOk: bool, readOk: bool, lines: seq<string>)
    returns (out: seq<string>, txBytes: int, status: Scrape)
    requires AllReadLines(lines)
    ensures !dialOk ==> status == DialFailed && out == [DialType, DialStatus + " 0"]
    ensures dialOk && !writeOk ==>
      status == WriteFailed && out == [DialType, DialStatus + " 1", WriteType, WriteStatus + " 0"]
    ensures dialOk && writeOk && !readOk ==>
      status == ReadFailed && out == [DialType, DialStatus + " 1", WriteType, WriteStatus + " 1", ReadType, ReadStatus + " 0"]
    ensures dialOk && writeOk && readOk ==>
      var os := Outcomes(lines);
      && out == Healthy + Texts(Exposition(ScrapedSamples(lines)))
      && (status == Panicked <==> FirstHalt(os) < |lines| && os[FirstHalt(os)].Panic?)
      && (status == Done || status == Panicked)
    ensures txBytes == TotalLength(out)
  {
    var typeText := DialType;
    out := [typeText];
    txBytes := |typeText|;
    var statusText := DialStatus;
    txBytes := txBytes + |statusText|;
    if !dialOk {
      out := out + [statusText + " 0"];
      StageLength([], typeText, statusText + " 0");
      assert [] + [typeText] + [statusText + " 0"] == out;
      return out, txBytes + 2, DialFailed;
    }
    out := out + [statusText + " 1"];
    txBytes := txBytes + 2;
    StageLength([], typeText, statusText + " 1");
    assert [] + [typeText] + [statusText + " 1"] == out;
    ghost var dialed := out;

    typeText := WriteType;
    out := out + [typeText];
    txBytes := txBytes + |typeText|;
    statusText := WriteStatus;
    txBytes := txBytes + |statusText|;
    if !writeOk {
      out := out + [statusText + " 0"];
      StageLength(dialed, typeText, statusText + " 0");
      return out, txBytes + 2, WriteFailed;
    }
    out := out + [statusText + " 1"];
    txBytes := txBytes + 2;
    StageLength(dialed, typeText, statusText + " 1");
    ghost var written := out;

    typeText := ReadType;
    out := out + [typeText];
    txBytes := txBytes + |typeText|;
    statusText := ReadStatus;
    txBytes := txBytes + |statusText|;
    if !readOk {
      out := out + [statusText + " 0"];
      StageLength(written, typeText, statusText + " 0");
      return out, txBytes + 2, ReadFailed;
    }
    out := out + [statusText + " 1"];
    txBytes := txBytes + 2;
    StageLength(written, typeText, statusText + " 1");
    assert out == Healthy;

    var body, bodyBytes, panicked := ExportLines(lines);
    TotalLengthAppend(out, body);
    out := out + body;
    txBytes := txBytes + bodyBytes;
    status := if panicked then Panicked else Done;
  }
}
