/**
 * One record of the reply that syslog-ng sends to the `STATS` command on its
 * control socket, and `parseLine`, which both exporter variants define
 * identically. A record is one line `objectType;id;instance;state;statType;value`.
 */
module SngRecord {
  import opened Wrappers
  import opened GoStrings
  import opened GoNumbers

  /** The six fields of a record, the last one already read as a number. */
  datatype SNGData = SNGData(objectType: string, id: string, instance: string, state: string, statType: string, value: Float)

  /** A parsed record, or the sixth field that `strconv.ParseFloat` refused. */
  datatype Result<T> = Ok(value: T) | Err(rejected: string)

  /** The fields `parseLine` works on: the trimmed line cut at its first five `;`. */
  function Chunks(line: string): seq<string>
  {
    SplitN(TrimSpace(line), ';', 6)
  }

  /** The chunks are at most six pieces that join back, with `;`, into the trimmed line. */
  lemma ChunksJoin(line: string)
    ensures var c := Chunks(line);
      && 1 <= |c| <= 6 && Join(c, ";") == TrimSpace(line)
      && (forall k :: 0 <= k < |c| - 1 ==> ';' !in c[k])
      && (|c| < 6 ==> ';' !in c[|c| - 1])
  {
    var c := SplitN(TrimSpace(line), ';', 6);
    assert c == Chunks(line);
  }

  /** Whether `chunk[5]` exists, that is, whether `parseLine` can run without an index panic. */
  predicate HasSixFields(line: string)
  {
    |Chunks(line)| == 6
  }

  /**
   * `parseLine`: the first five fields copied verbatim, the sixth read as a
   * number. A record comes back exactly when the sixth field is a number.
   */
  function ParseLine(line: string): (r: Result<SNGData>)
    requires HasSixFields(line)
    ensures r.Ok? <==> ParseValue(Chunks(line)[5]).Some?
    ensures r.Ok? ==>
      var d := r.value;
      && d.objectType == Chunks(line)[0] && d.id == Chunks(line)[1] && d.instance == Chunks(line)[2]
      && d.state == Chunks(line)[3] && d.statType == Chunks(line)[4]
      && ParseValue(Chunks(line)[5]) == Some(d.value)
    ensures r.Err? ==> r.rejected == Chunks(line)[5] && ParseValue(r.rejected).None?
  {
    var chunk := Chunks(line);
    match ParseValue(chunk[5])
    case None => Err(chunk[5])
    case Some(num) =>
      Ok(SNGData(chunk[0], chunk[1], chunk[2], chunk[3], chunk[4], num))
  }

  /**
   * What a parsed record says about its line: the trimmed line is its five
   * `;`-free fields and the text of its value, separated by `;`.
   */
  lemma ParseLineText(line: string)
    requires HasSixFields(line) && ParseLine(line).Ok?
    ensures var d := ParseLine(line).value; var text := Chunks(line)[5];
      && TrimSpace(line) == d.objectType + ";" + d.id + ";" + d.instance + ";" + d.state + ";" + d.statType + ";" + text
      && ';' !in d.objectType && ';' !in d.id && ';' !in d.instance && ';' !in d.state && ';' !in d.statType
      && ParseValue(text) == Some(d.value)
  {
    var c := Chunks(line);
    JoinSix(c);
    assert ';' !in c[0] && ';' !in c[1] && ';' !in c[2] && ';' !in c[3] && ';' !in c[4];
  }

  /** Six fields joined with `;`. */
  lemma JoinSix(p: seq<string>)
    requires |p| == 6
    ensures Join(p, ";") == p[0] + ";" + p[1] + ";" + p[2] + ";" + p[3] + ";" + p[4] + ";" + p[5]
  {
    assert Join(p[5..], ";") == p[5];
    assert p[4..][1..] == p[5..];
    assert Join(p[4..], ";") == p[4] + ";" + p[5];
    assert p[3..][1..] == p[4..];
    assert Join(p[3..], ";") == p[3] + ";" + Join(p[4..], ";");
    assert p[2..][1..] == p[3..];
    assert Join(p[2..], ";") == p[2] + ";" + Join(p[3..], ";");
    assert p[1..][1..] == p[2..];
    assert Join(p[1..], ";") == p[1] + ";" + Join(p[2..], ";");
  }

  /** Records in state `o` (orphaned) or `d` (dynamic) are not exported. */
  predicate Kept(d: SNGData)
  {
    d.state != "o" && d.state != "d"
  }

  /** A line as `bufio.Reader.ReadString('\n')` returns it without error: it ends in a newline. */
  predicate IsReadLine(line: string)
  {
    |line| > 0 && line[|line| - 1] == '\n'
  }

  /** The lines of a reply, each as `ReadString('\n')` returned it; the end of the sequence is the end of the stream. */
  predicate AllReadLines(lines: seq<string>)
  {
    forall i :: 0 <= i < |lines| ==> IsReadLine(lines[i])
  }

  /** The line `.` (or any line starting with a dot) ends the `STATS` reply. */
  predicate IsTerminator(line: string)
    requires IsReadLine(line)
  {
    line[0] == '.'
  }

  /** The fields of a record that syslog-ng can write on one line. */
  predicate Writable(d: SNGData)
  {
    && ';' !in d.objectType && ';' !in d.id && ';' !in d.instance && ';' !in d.state && ';' !in d.statType
    && (d.objectType == [] || !IsSpace(d.objectType[0]))
  }

  /** The line syslog-ng writes for a record. */
  function RecordLine(d: SNGData): string
  {
    Join([d.objectType, d.id, d.instance, d.state, d.statType, DecimalText(d.value)], ";") + "\n"
  }

  lemma DecimalTextShape(v: Float)
    ensures var t := DecimalText(v);
      |t| > 0 && ';' !in t && !IsSpace(t[0]) && !IsSpace(t[|t| - 1])
  {
    var d := Decimal(v.magnitude);
    assert IsDigit(d[|d| - 1]);
    assert IsDigit(d[0]);
  }

  function RecordFields(d: SNGData): seq<string>
  {
    [d.objectType, d.id, d.instance, d.state, d.statType, DecimalText(d.value)]
  }

  /** The text of a record line carries no white space at either end. */
  lemma RecordTextTrimmed(d: SNGData)
    requires Writable(d)
    ensures TrimSpace(RecordLine(d)) == Join(RecordFields(d), ";")
  {
    var parts := RecordFields(d);
    var text := parts[5];
    DecimalTextShape(d.value);
    var joined := Join(parts, ";");
    JoinSix(parts);
    assert joined[|joined| - 1] == text[|text| - 1];
    assert joined[0] == (if d.objectType == [] then ';' else d.objectType[0]);
    assert Trimmed(joined);
    assert AllSpace("\n");
    assert [] + joined + "\n" == RecordLine(d);
    TrimSpaceUnique([], joined, "\n");
  }

  /** A record line ends in a newline and starts with the object type, or with `;` when that is empty. */
  lemma RecordLineStart(d: SNGData)
    ensures IsReadLine(RecordLine(d))
    ensures RecordLine(d)[0] == if d.objectType == [] then ';' else d.objectType[0]
  {
    JoinPrepend(d.objectType, RecordFields(d)[1..], ";");
    assert RecordFields(d) == [d.objectType] + RecordFields(d)[1..];
  }

  /** `parseLine` reads back every record syslog-ng can write, unchanged. */
  lemma ParseRecordLine(d: SNGData)
    requires Writable(d)
    ensures HasSixFields(RecordLine(d)) && ParseLine(RecordLine(d)) == Ok(d)
  {
    var parts := RecordFields(d);
    RecordTextTrimmed(d);
    DecimalTextShape(d.value);
    SplitNJoin(parts, ';', 6);
    assert Chunks(RecordLine(d)) == parts;
    ParseDecimalText(d.value);
  }

  /** Each `;` in the pieces' gaps is counted once: all pieces but the last are `;`-free. */
  lemma {:induction false} CountJoin(parts: seq<string>, sep: char)
    requires |parts| >= 1
    requires forall k :: 0 <= k < |parts| - 1 ==> sep !in parts[k]
    ensures Count(Join(parts, [sep]), sep) == |parts| - 1 + Count(parts[|parts| - 1], sep)
    decreases |parts|
  {
    if |parts| > 1 {
      var rest := Join(parts[1..], [sep]);
      CountJoin(parts[1..], sep);
      CountAppend(parts[0] + [sep], rest, sep);
      CountAppend(parts[0], [sep], sep);
      CountZero(parts[0], sep);
      assert Count([sep], sep) == 1 by {
        assert [sep][..0] == [];
      }
    }
  }

  /** A line has six fields exactly when its trimmed text holds at least five `;`. */
  lemma FieldCount(line: string)
    ensures HasSixFields(line) <==> Count(TrimSpace(line), ';') >= 5
  {
    var c := Chunks(line);
    ChunksJoin(line);
    CountJoin(c, ';');
    if |c| < 6 {
      CountZero(c[|c| - 1], ';');
    }
  }

  /** A value field that holds a `;` is not a number. */
  lemma SeparatorNotNumber(v: string)
    requires ';' in v
    ensures ParseValue(v).None?
  {
    var i :| 0 <= i < |v| && v[i] == ';';
    if i > 0 {
      assert v[1..][i - 1] == ';';
    }
  }

  /**
   * The split stops at six pieces, so a sixth `;` stays inside the value field,
   * which then fails to parse as a number.
   */
  lemma ExtraSeparator(line: string)
    requires Count(TrimSpace(line), ';') >= 6
    ensures HasSixFields(line) && ParseLine(line).Err?
  {
    FieldCount(line);
    var c := Chunks(line);
    ChunksJoin(line);
    CountJoin(c, ';');
    CountZero(c[5], ';');
    SeparatorNotNumber(c[5]);
  }
}
