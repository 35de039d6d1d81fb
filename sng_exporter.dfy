/**
 * The older exporter: the same `STATS` reply read line by line, but with
 * sample labels `sngId`, `sngInstance` and `sngState`, names without a kind
 * suffix, a type line before every sample, and a kind chosen by the object
 * type and the stat type that, when neither decides it, stays what the
 * previous record left.
 */
module SngExporter {
  import opened Wrappers
  import opened GoStrings
  import opened GoNumbers
  import opened SngRecord
  import opened TextFormat
  import opened MetricNames
  import SngExport

  /* ---------------------------------------------------------------------- */
  /* Names and lines                                                        */
  /* ---------------------------------------------------------------------- */

  /** `TypeLine`: the words `# TYPE`, the name and the type, joined by spaces. */
  function TypeLine(metricName: string, metricType: string): string
  {
    Join(["# TYPE", metricName, metricType], " ")
  }

  /** The type line is the exposition format's type declaration, also when the type is still empty. */
  lemma TypeLineText(metricName: string, metricType: string)
    ensures TypeLine(metricName, metricType) == TypeText(metricName, metricType)
  {
    JoinPrepend(metricName, [metricType], " ");
    JoinPrepend("# TYPE", [metricName, metricType], " ");
  }

  /**
   * `MetricLine`: a sample line whose labels are `sngId`, `sngInstance` and
   * `sngState`, in that order, holding the record's fields verbatim, followed
   * by the value as `%g` writes it.
   */
  function MetricLine(metricName: string, sng: SNGData): string
  {
    var num := FormatG(sng.value);
    SampleTextOfThree(metricName, "sngId", sng.id, "sngInstance", sng.instance, "sngState", sng.state, num)
  }

  lemma MetricLineText(metricName: string, sng: SNGData)
    ensures MetricLine(metricName, sng) ==
      SampleText(metricName, [("sngId", sng.id), ("sngInstance", sng.instance), ("sngState", sng.state)], FormatG(sng.value))
  {
    SampleTextOfThreeIs(metricName, "sngId", sng.id, "sngInstance", sng.instance, "sngState", sng.state, FormatG(sng.value));
  }

  /** `MetricName`: `sng`, the object type and the stat type joined with `_`, every `.` then replaced by `_`. */
  function MetricName(m: SNGData): string
  {
    ReplaceAll(Join(["sng", m.objectType, m.statType], "_"), '.', '_')
  }

  /** The name has no kind suffix and no `.`. */
  lemma MetricNameShape(m: SNGData)
    ensures MetricName(m) == "sng_" + ReplaceAll(m.objectType, '.', '_') + "_" + ReplaceAll(m.statType, '.', '_')
    ensures '.' !in MetricName(m)
  {
    JoinedName(m.objectType, m.statType);
    NameReplace(m, "");
  }

  /**
   * The newer exporter names a gauge exactly as the older one names every
   * record, and a counter with `_total` added.
   */
  lemma MetricNameAcrossVariants(m: SNGData)
    ensures SngExport.CreateMetricName(m, Gauge) == MetricName(m)
    ensures SngExport.CreateMetricName(m, Counter) == MetricName(m) + "_total"
  {
    MetricNameShape(m);
    SngExport.MetricNameShape(m, Gauge);
    SngExport.MetricNameShape(m, Counter);
  }

  /* ---------------------------------------------------------------------- */
  /* The kind                                                               */
  /* ---------------------------------------------------------------------- */

  predicate HasPrefix(s: string, p: string)
  {
    |s| >= |p| && s[..|p|] == p
  }

  /**
   * The slices the kind switch takes, `objectType[0:4]` and then
   * `statType[0:2]` under `src.` or `statType[0:1]` under `dst.`, go past the
   * end of the field.
   */
  predicate SwitchPanics(d: SNGData)
  {
    || |d.objectType| < 4
    || (d.objectType[..4] == "src." && |d.statType| < 2)
    || (d.objectType[..4] == "dst." && |d.statType| < 1)
  }

  /**
   * The kind a record sets, if any: a source's processed (`pr`) and stamped
   * (`st`) counts are counters; a destination's processed, dropped and written
   * counts (`p`, `d`, `w`) are counters and its memory and queue figures
   * (`m`, `q`) gauges. No other record sets a kind.
   */
  function Assigned(d: SNGData): (r: Option<string>)
    ensures r.Some? ==> r.value in {Counter, Gauge}
    ensures r.Some? ==> HasPrefix(d.objectType, "src.") || HasPrefix(d.objectType, "dst.")
    ensures r == Some(Gauge) ==> HasPrefix(d.objectType, "dst.")
  {
    if HasPrefix(d.objectType, "src.") && (HasPrefix(d.statType, "pr") || HasPrefix(d.statType, "st")) then Some(Counter)
    else if HasPrefix(d.objectType, "dst.") && |d.statType| > 0 && d.statType[0] in {'p', 'd', 'w'} then Some(Counter)
    else if HasPrefix(d.objectType, "dst.") && |d.statType| > 0 && d.statType[0] in {'m', 'q'} then Some(Gauge)
    else None
  }

  /** The kind after a record: the one it sets, or else the one before it. */
  function KindAfter(d: SNGData, previous: string): (k: string)
    ensures k in {Counter, Gauge, previous}
    ensures k != previous ==> Assigned(d).Some?
  {
    match Assigned(d)
    case Some(k) => k
    case None => previous
  }

  /**
   * The kind switch of the read loop, as the source writes it: the outer
   * switch on the first four bytes of the object type, the inner one on a
   * prefix of the stat type, and no assignment where no case matches.
   */
  method SwitchKind(d: SNGData, statType: string) returns (statType': string)
    requires !SwitchPanics(d)
    ensures statType' == KindAfter(d, statType)
  {
    statType' := statType;
    var objectPrefix := d.objectType[0..4];
    if objectPrefix == "src." {
      var statPrefix := d.statType[0..2];
      if statPrefix == "pr" {
        statType' := Counter;
      } else if statPrefix == "st" {
        statType' := Counter;
      }
    } else if objectPrefix == "dst." {
      var statPrefix := d.statType[0..1];
      if statPrefix == "p" || statPrefix == "d" || statPrefix == "w" {
        statType' := Counter;
      } else if statPrefix == "m" || statPrefix == "q" {
        statType' := Gauge;
      }
    }
    assert d.objectType[..4] == objectPrefix;
    if objectPrefix == "src." {
      assert d.statType[..2] == d.statType[0..2];
    } else if objectPrefix == "dst." {
      assert d.statType[0..1] == [d.statType[0]];
    }
  }

  /* ---------------------------------------------------------------------- */
  /* One data line                                                          */
  /* ---------------------------------------------------------------------- */

  /** What the read loop does with one line, apart from the kind. */
  datatype Outcome = End | Crash | Ignored | Record(record: SNGData)

  /** An outcome that ends the loop, normally or by a panic. */
  predicate Halts(o: Outcome)
  {
    o.End? || o.Crash?
  }

  /**
   * A line starting with `.` ends the loop; one with fewer than six fields
   * panics in `parseLine`; a line whose value is not a number and a record
   * in state `o` or `d` are skipped; a kept record whose kind switch slices
   * past a field's end panics; every other record is written.
   */
  function ReadOutcome(line: string): Outcome
    requires IsReadLine(line)
  {
    if IsTerminator(line) then End
    else if !HasSixFields(line) then Crash
    else
      match ParseLine(line)
      case Err(_) => Ignored
      case Ok(d) => RecordOutcome(d)
  }

  /** What the loop does with a parsed record: drop it in state `o` or `d`, else panic in the kind switch or write it. */
  function RecordOutcome(d: SNGData): Outcome
  {
    if !Kept(d) then Ignored
    else if SwitchPanics(d) then Crash
    else Record(d)
  }

  /** A record line the loop reads: dropped in state `o` or `d`, written when its kind switch does not panic. */
  lemma ReadOutcomeOfRecord(d: SNGData)
    requires Writable(d) && (d.objectType == [] || d.objectType[0] != '.')
    ensures IsReadLine(RecordLine(d))
    ensures ReadOutcome(RecordLine(d)) == if !Kept(d) then Ignored else if SwitchPanics(d) then Crash else Record(d)
  {
    var line := RecordLine(d);
    ParseRecordLine(d);
    RecordLineStart(d);
    assert !IsTerminator(line);
    assert ParseLine(line) == Ok(d);
  }

  /* ---------------------------------------------------------------------- */
  /* The records of a reply and their exposition                            */
  /* ---------------------------------------------------------------------- */

  datatype Read = Read(records: seq<SNGData>, panicked: bool)

  /**
   * The records the loop writes reading from line `from` on, in order: those
   * of the lines before the first line that ends the loop, and whether that
   * line panicked.
   */
  function Scraped(lines: seq<string>, from: nat): (r: Read)
    requires AllReadLines(lines) && from <= |lines|
    ensures |r.records| <= |lines| - from
    ensures r.panicked ==> from < |lines|
    decreases |lines| - from
  {
    if from == |lines| then Read([], false)
    else
      var rest := Scraped(lines, from + 1);
      match ReadOutcome(lines[from])
      case End => Read([], false)
      case Crash => Read([], true)
      case Ignored => rest
      case Record(d) => Read([d] + rest.records, rest.panicked)
  }

  /**
   * The lines written for some records, the kind starting as `kind`: for
   * each record its type line, under the kind after it, then its sample line.
   * There is no deduplication.
   */
  function Exposition(records: seq<SNGData>, kind: string): (out: seq<Line>)
    ensures |out| == 2 * |records|
  {
    if records == [] then []
    else
      var d := records[0];
      var k := KindAfter(d, kind);
      [TypeDecl(MetricName(d), k), SampleLine(MetricName(d), d)] + Exposition(records[1..], k)
  }

  /** A line written to the response: a type line or a sample line. */
  datatype Line = TypeDecl(name: string, kind: string) | SampleLine(name: string, record: SNGData)

  function LineText(l: Line): string
  {
    match l
    case TypeDecl(name, kind) => TypeLine(name, kind)
    case SampleLine(name, record) => MetricLine(name, record)
  }

  function Texts(ls: seq<Line>): (ts: seq<string>)
    ensures |ts| == |ls|
  {
    if ls == [] then [] else [LineText(ls[0])] + Texts(ls[1..])
  }

  /** The response is written line by line: its `k`th entry is the text of the `k`th line. */
  lemma {:induction false} TextsAt(ls: seq<Line>, k: nat)
    requires k < |ls|
    ensures Texts(ls)[k] == LineText(ls[k])
    decreases k
  {
    if k > 0 {
      TextsAt(ls[1..], k - 1);
    }
  }

  lemma {:induction false} TextsAppend(a: seq<Line>, b: seq<Line>)
    ensures Texts(a + b) == Texts(a) + Texts(b)
    decreases |a|
  {
    if a == [] {
      assert a + b == b;
    } else {
      assert (a + b)[1..] == a[1..] + b;
      TextsAppend(a[1..], b);
    }
  }

  /** The two lines written for one record. */
  lemma RecordTexts(d: SNGData, kind: string)
    ensures Texts(Exposition([d], kind)) == [TypeLine(MetricName(d), KindAfter(d, kind)), MetricLine(MetricName(d), d)]
  {
    var ls := Exposition([d], kind);
    assert [d][1..] == [];
    assert ls == [TypeDecl(MetricName(d), KindAfter(d, kind)), SampleLine(MetricName(d), d)];
    assert ls[1..][1..] == [];
  }

  /** The kind in force after some records: that of the last one that sets a kind, or the initial one. */
  function LastAssigned(records: seq<SNGData>, initial: string): string
  {
    if records == [] then initial
    else
      match Assigned(records[|records| - 1])
      case Some(k) => k
      case None => LastAssigned(records[..|records| - 1], initial)
  }

  lemma {:induction false} LastAssignedCons(d: SNGData, rest: seq<SNGData>, initial: string)
    ensures LastAssigned([d] + rest, initial) == LastAssigned(rest, KindAfter(d, initial))
    decreases |rest|
  {
    var all := [d] + rest;
    if rest == [] {
      assert all[..0] == [];
    } else {
      var init := rest[..|rest| - 1];
      assert all[..|all| - 1] == [d] + init;
      assert all[|all| - 1] == rest[|rest| - 1];
      LastAssignedCons(d, init, initial);
    }
  }

  /**
   * Two lines per record: the `j`th record's type line, under the kind of the
   * last record up to it that sets one (the initial kind if none does), then
   * its sample line.
   */
  lemma {:induction false} ExpositionAt(records: seq<SNGData>, kind: string, j: nat)
    requires j < |records|
    ensures var out := Exposition(records, kind);
      var name := MetricName(records[j]);
      && out[2 * j] == TypeDecl(name, LastAssigned(records[..j + 1], kind))
      && out[2 * j + 1] == SampleLine(name, records[j])
    decreases j
  {
    var d, rest := records[0], records[1..];
    var k := KindAfter(d, kind);
    var out := Exposition(records, kind);
    assert out == [TypeDecl(MetricName(d), k), SampleLine(MetricName(d), d)] + Exposition(rest, k);
    if j == 0 {
      assert records[..1] == [d] + [];
      LastAssignedCons(d, [], kind);
    } else {
      var j' := j - 1;
      ExpositionAt(rest, k, j');
      assert rest[j'] == records[j];
      assert records[..j + 1] == [d] + rest[..j' + 1];
      LastAssignedCons(d, rest[..j' + 1], kind);
      assert out[2 * j] == Exposition(rest, k)[2 * j'];
      assert out[2 * j + 1] == Exposition(rest, k)[2 * j' + 1];
    }
  }

  /** While no record has set a kind, type lines carry the initial kind. */
  lemma {:induction false} UnsetKind(records: seq<SNGData>, initial: string)
    requires forall k :: 0 <= k < |records| ==> Assigned(records[k]).None?
    ensures LastAssigned(records, initial) == initial
    decreases |records|
  {
    if records != [] {
      var init := records[..|records| - 1];
      assert forall k :: 0 <= k < |init| ==> init[k] == records[k];
      UnsetKind(init, initial);
    }
  }

  /** The lines of one record followed by those of the rest. */
  lemma ExpositionTextCons(d: SNGData, rest: seq<SNGData>, kind: string)
    ensures Texts(Exposition([d] + rest, kind)) == Texts(Exposition([d], kind)) + Texts(Exposition(rest, KindAfter(d, kind)))
  {
    assert ([d] + rest)[1..] == rest;
    assert [d][1..] == [];
    assert Exposition([d] + rest, kind) == Exposition([d], kind) + Exposition(rest, KindAfter(d, kind));
    TextsAppend(Exposition([d], kind), Exposition(rest, KindAfter(d, kind)));
  }

  /* ---------------------------------------------------------------------- */
  /* One scrape                                                             */
  /* ---------------------------------------------------------------------- */

  /**
   * The tests of the read loop for one line, in the source's order: the end
   * of the reply, `parseLine` (and its panic), the state filter and the
   * slices of the kind switch.
   */
  method ReadRecord(line: string) returns (o: Outcome)
    requires IsReadLine(line)
    ensures o == ReadOutcome(line)
  {
    if line[0] == '.' {
      return End;
    }
    if !HasSixFields(line) {
      return Crash;
    }
    var parsed := ParseLine(line);
    if parsed.Err? {
      return Ignored;
    }
    o := KeepRecord(parsed.value);
  }

  /** The state filter, then the slices of the kind switch. */
  method KeepRecord(sngData: SNGData) returns (o: Outcome)
    ensures o == RecordOutcome(sngData)
  {
    if sngData.state == "o" || sngData.state == "d" {
      return Ignored;
    }
    if |sngData.objectType| < 4 {
      return Crash;
    }
    var objectPrefix := sngData.objectType[0..4];
    if objectPrefix == "src." && |sngData.statType| < 2 {
      return Crash;
    }
    if objectPrefix == "dst." && |sngData.statType| < 1 {
      return Crash;
    }
    return Record(sngData);
  }

  /**
   * A kept record whose kind switch does not panic: its name, the kind after
   * it, and its type line and sample line under that name and kind.
   */
  method WriteRecord(sngData: SNGData, statType: string) returns (statType': string, written: seq<string>)
    requires !SwitchPanics(sngData)
    ensures statType' == KindAfter(sngData, statType)
    ensures written == Texts(Exposition([sngData], statType))
  {
    var name := MetricName(sngData);
    statType' := SwitchKind(sngData, statType);
    written := [TypeLine(name, statType'), MetricLine(name, sngData)];
    RecordTexts(sngData, statType);
  }

  /** The records from line `i` on, in terms of those from line `i + 1` on. */
  lemma ScrapedNext(lines: seq<string>, i: nat)
    requires AllReadLines(lines) && i < |lines|
    ensures var o, now, next := ReadOutcome(lines[i]), Scraped(lines, i), Scraped(lines, i + 1);
      && (Halts(o) ==> now == Read([], o.Crash?))
      && (o.Ignored? ==> now == next)
      && (o.Record? ==> Kept(o.record) && !SwitchPanics(o.record) && now == Read([o.record] + next.records, next.panicked))
  {
  }

  /** Every record the loop writes is kept by the state filter and passes the kind switch's slices. */
  lemma {:induction false} ScrapedKept(lines: seq<string>, from: nat)
    requires AllReadLines(lines) && from <= |lines|
    ensures var records := Scraped(lines, from).records;
      forall k :: 0 <= k < |records| ==> Kept(records[k]) && !SwitchPanics(records[k])
    decreases |lines| - from
  {
    if from < |lines| {
      ScrapedNext(lines, from);
      var o := ReadOutcome(lines[from]);
      if o.Ignored? {
        ScrapedKept(lines, from + 1);
      } else if o.Record? {
        ScrapedKept(lines, from + 1);
        var d, now, next := o.record, Scraped(lines, from).records, Scraped(lines, from + 1).records;
        assert Kept(d) && !SwitchPanics(d);
        assert now == [d] + next;
        forall k | 0 <= k < |now|
          ensures Kept(now[k]) && !SwitchPanics(now[k])
        {
          if k > 0 {
            assert now[k] == next[k - 1];
          }
        }
      }
    }
  }

  /**
   * Writing a record keeps what has been written followed by what is still
   * to come: its two lines move from the second part to the first, and the
   * rest then starts from the kind it leaves.
   */
  method WriteNext(sngData: SNGData, out: seq<string>, statType: string, ghost rest: seq<SNGData>)
    returns (out': seq<string>, statType': string)
    requires !SwitchPanics(sngData)
    ensures statType' == KindAfter(sngData, statType)
    ensures out' + Texts(Exposition(rest, statType')) == out + Texts(Exposition([sngData] + rest, statType))
  {
    var written;
    statType', written := WriteRecord(sngData, statType);
    out' := out + written;
    ExpositionTextCons(sngData, rest, statType);
    assert out' + Texts(Exposition(rest, statType')) == out + (written + Texts(Exposition(rest, statType')));
  }

  /**
   * The loop invariant of `GetSNGStats`: the lines written so far, followed
   * by those the records from line `i` on write under the current kind, are
   * the whole exposition, and the loop will end the same way from line `i`.
   */
  predicate Progress(lines: seq<string>, i: nat, out: seq<string>, statType: string)
    requires AllReadLines(lines) && i <= |lines|
  {
    var now, all := Scraped(lines, i), Scraped(lines, 0);
    && out + Texts(Exposition(now.records, statType)) == Texts(Exposition(all.records, ""))
    && now.panicked == all.panicked
  }

  /** Nothing written, from the first line on with the empty kind: the invariant holds before the loop. */
  lemma ProgressStart(lines: seq<string>)
    requires AllReadLines(lines)
    ensures Progress(lines, 0, [], "")
  {
    assert [] + Texts(Exposition(Scraped(lines, 0).records, "")) == Texts(Exposition(Scraped(lines, 0).records, ""));
  }

  /** A pass that does not end the loop keeps the invariant, one line further on. */
  lemma ProgressNext(lines: seq<string>, i: nat, out: seq<string>, statType: string, out': seq<string>, statType': string)
    requires AllReadLines(lines) && i < |lines| && Progress(lines, i, out, statType)
    requires var now, next := Scraped(lines, i), Scraped(lines, i + 1);
      && now.panicked == next.panicked
      && out' + Texts(Exposition(next.records, statType')) == out + Texts(Exposition(now.records, statType))
    ensures Progress(lines, i + 1, out', statType')
  {
  }

  /** A pass that ends the loop leaves the whole exposition written. */
  lemma ProgressHalt(lines: seq<string>, i: nat, out: seq<string>, statType: string)
    requires AllReadLines(lines) && i <= |lines| && Progress(lines, i, out, statType)
    requires Scraped(lines, i).records == []
    ensures out == Texts(Exposition(Scraped(lines, 0).records, ""))
  {
    assert Exposition([], statType) == [];
    assert out + [] == out;
  }

  /** Past the last line, the whole exposition is written and the loop did not panic. */
  lemma ProgressEnd(lines: seq<string>, out: seq<string>, statType: string)
    requires AllReadLines(lines) && Progress(lines, |lines|, out, statType)
    ensures out == Texts(Exposition(Scraped(lines, 0).records, ""))
    ensures !Scraped(lines, 0).panicked
  {
    ProgressHalt(lines, |lines|, out, statType);
  }

  /**
   * One pass of the read loop over line `i`. A line that ends the loop
   * leaves the whole exposition written, and reports whether it panicked.
   * Any other line writes its record's lines, if it has a record, and keeps
   * the invariant, one line further on.
   */
  method ScrapeLine(lines: seq<string>, i: nat, out: seq<string>, statType: string)
    returns (out': seq<string>, statType': string, halt: bool, panicked: bool)
    requires AllReadLines(lines) && i < |lines| && Progress(lines, i, out, statType)
    ensures halt ==> out' == Texts(Exposition(Scraped(lines, 0).records, "")) && panicked == Scraped(lines, 0).panicked
    ensures !halt ==> !panicked && Progress(lines, i + 1, out', statType')
  {
    out', statType', halt, panicked := out, statType, false, false;
    var o := ReadRecord(lines[i]);
    ScrapedNext(lines, i);
    if o.End? || o.Crash? {
      halt, panicked := true, o.Crash?;
      ProgressHalt(lines, i, out, statType);
      return;
    }
    if o.Record? {
      out', statType' := WriteNext(o.record, out, statType, Scraped(lines, i + 1).records);
    }
    ProgressNext(lines, i, out, statType, out', statType');
  }

  /**
   * The read loop of `GetSNGStats` (after the banner line): every record
   * before the first line that ends the loop gets a type line and a sample
   * line, the kind starting empty and carried from record to record; whether
   * that line made the loop panic.
   */
  method ReadLoop(lines: seq<string>) returns (out: seq<string>, panicked: bool)
    requires AllReadLines(lines)
    ensures out == Texts(Exposition(Scraped(lines, 0).records, ""))
    ensures panicked == Scraped(lines, 0).panicked
  {
    out, panicked := [], false;
    var statType := "";
    var i := 0;
    ProgressStart(lines);
    while i < |lines|
      invariant 0 <= i <= |lines|
      invariant Progress(lines, i, out, statType)
      invariant !panicked
    {
      var halt;
      out, statType, halt, panicked := ScrapeLine(lines, i, out, statType);
      if halt {
        return;
      }
      i := i + 1;
    }
    ProgressEnd(lines, out, statType);
  }

  /**
   * `GetSNGStats` with the control socket replaced by its observable
   * behaviour, as for the newer exporter. A failed stage writes nothing.
   * Otherwise every record before the first line that ends the loop gets a
   * type line and a sample line, the kind starting empty.
   */
  method GetSNGStats(dialOk: bool, writeOk: bool, readOk: bool, lines: seq<string>) returns (out: seq<string>, panicked: bool)
    requires AllReadLines(lines)
    ensures !(dialOk && writeOk && readOk) ==> out == [] && !panicked
    ensures dialOk && writeOk && readOk ==>
      out == Texts(Exposition(Scraped(lines, 0).records, "")) && panicked == Scraped(lines, 0).panicked
  {
    out, panicked := [], false;
    if !dialOk {
      return;
    }
    if !writeOk {
      return;
    }
    if !readOk {
      return;
    }
    out, panicked := ReadLoop(lines);
  }
}
