# syslog-ng STATS exporter: a verified Dafny model

This project models the translator at the heart of a small Prometheus
exporter for syslog-ng. On each scrape the exporter:

1. dials syslog-ng's control socket;
2. sends `STATS`;
3. discards the banner line;
4. reads data lines of the form `objectType;id;instance;state;statType;value`
   until a line starting with `.`;
5. writes one Prometheus text-exposition sample per exported record, with
   `# TYPE` declarations.

Two variants of the translator are modelled.

- **`sng-export.go`**, the newer variant (module `SngExport`):
  - it first writes three health gauges, for the dial, the write and the
    banner read;
  - it drops records in state `o` (orphaned) or `d` (dynamic);
  - it makes stat types starting `co`, `me` or `qu` gauges and every other
    stat type a counter;
  - it names counters `sng_<objectType>_<statType>_total` and gauges
    without the suffix, with every `.` turned into `_`;
  - it writes a metric name's `# TYPE` line only once per scrape, tracked in
    the `typeName` map;
  - it counts the bytes written (`txBytes`).
- **`sng_exporter.go`**, the older variant (module `SngExporter`):
  - it has no health lines;
  - its names have no kind suffix;
  - its labels are `sngId`, `sngInstance` and `sngState`;
  - it writes a `# TYPE` line before every single sample, so there is no
    deduplication;
  - its kind comes from a switch on `objectType[0:4]` and a prefix of
    `statType`. A record the switch does not decide keeps the kind left by
    the previous record, which is the empty string before any assignment.

Shared pieces:

- `SngRecord`: the record (`SNGData`) and `parseLine`. The two Go files hold
  identical copies.
- `GoStrings`: the Go library string functions the code relies on
  (`strings.TrimSpace`, `SplitN`, `Split`, `Join`, `LastIndex`, `ReplaceAll`).
- `GoNumbers`: `strconv.ParseFloat` and `%g`, restricted to integral values.
- `TextFormat`: the shape of exposition lines.

Modelling decisions:

- **Socket.** The control socket becomes three booleans (did the dial, the
  write and the banner read succeed?) and the sequence of lines that
  `bufio.Reader.ReadString('\n')` returns afterwards. Each line ends in a
  newline, and the end of the sequence is the read error that ends the loop.
- **Output.** The HTTP response is the sequence of lines written with
  `fmt.Fprintln`. The newlines themselves are not stored.
- **Go panics.** The model treats an index out of range as an observable
  outcome of the scrape (`Panicked` / `panicked`), not as a precondition.
  Such a panic happens at:
  - `chunk[5]` in `parseLine`, for a line with fewer than six fields;
  - `statType[0:2]` in the newer loop;
  - `objectType[0:4]`, `statType[0:2]` and `statType[0:1]` in the older
    switch.

  `ParseLine` itself requires six fields, and its callers test this first.

### Behaviour of the code worth knowing

- A line with fewer than six `;`-fields makes `chunk[5]` panic, and the
  handler goroutine dies (`Step` returns `Panic`; `ReadOutcome` returns
  `Crash`). A line with more than five `;` keeps the rest in the sixth
  field, which then fails to parse, so the line is skipped
  (`SngRecord.ExtraSeparator`).
- Labels are copied verbatim from the record:
  - `"` and `\` are written as they are;
  - an empty instance gives an empty label value;
  - the label names are `id`, `sng_instance` and `state` (newer variant),
    or `sngId`, `sngInstance` and `sngState` (older variant).
- The metric name is built from the object type and the stat type.
- In the newer variant, a stat type shorter than two characters panics on
  `statType[0:2]`.
- The health section's second `# TYPE` line declares `sng_dial_state`
  again. None of the three `# TYPE` names is the name of the status sample
  after it.
- The older variant writes a kept record even when its kind switch does not
  decide the kind:
  - it inherits the previous kind;
  - before any assignment the kind is empty, giving the line
    `# TYPE <name> ` with a trailing space.
- In both variants, different records can share a metric name:
  - a `.` and a `_` in the same place give the same name (`src.tcp` and
    `src_tcp`);
  - the `_` that joins the fields does not mark where one field ends, so
    object type `a_b` with stat type `c` and object type `a` with stat type
    `b_c` both give `sng_a_b_c`.

  Other characters, `-` among them, are kept as they are.

## Model

| member | source | states |
|---|---|---|
| GoStrings.TrimSpace | sng-export.go:100 | the result is the argument without its leading and trailing Unicode white space: a trimmed infix with only white space around it |
| GoStrings.TrimSpaceUnique | sng-export.go:100 | white space around a trimmed text is exactly what `strings.TrimSpace` removes |
| GoStrings.TrimSpaceIdempotent | sng-export.go:37 | trimming twice gives the same as trimming once |
| GoStrings.IndexOf | sng-export.go:35 | `-1` exactly when the character is absent, otherwise the position of its first occurrence |
| GoStrings.LastIndex | sng-export.go:17 | `-1` exactly when the character is absent, otherwise the position of its last occurrence |
| GoStrings.SplitN | sng-export.go:100 | `strings.SplitN`: between 1 and n pieces, all but the last free of the separator, and the last one too when fewer than n, joining back to the input |
| GoStrings.Split | sng-export.go:35 | `strings.Split`: at least one piece, none holding the separator, joining back to the input |
| GoStrings.SplitNJoin | sng-export.go:100 | splitting the join of separator-free pieces gives the pieces back |
| GoStrings.SplitJoin | sng-export.go:35 | splitting the join of separator-free pieces gives the pieces back |
| GoStrings.SplitHead | sng-export.go:35-40 | the first piece of a split is everything before the first separator |
| GoStrings.JoinPrepend | sng-export.go:75-76 | joining a first part before at least one more puts the separator between it and the join of the rest |
| GoStrings.ReplaceAll | sng-export.go:95 | same length; each occurrence of the character is replaced and every other character is kept |
| GoStrings.ReplaceAllAppend | sng-export.go:95 | replacing distributes over concatenation |
| GoStrings.ReplaceAllUnchanged | sng-export.go:95 | a text without the character is unchanged |
| GoStrings.LastIndexBefore | sng-export.go:17 | in `a + c + b` with no `c` in `b`, the last `c` is at `|a|` |
| GoStrings.CountZero | sng-export.go:100 | no occurrence is counted exactly when the character is absent |
| GoNumbers.ParseValue | sng-export.go:101 | `ParseFloat` on integers: a value exactly for an optional sign followed by digits; negative exactly when the sign is `-` |
| GoNumbers.Decimal | sng-export.go:80 | the shortest digit string, denoting the number |
| GoNumbers.ParseDecimalText | sng-export.go:101 | reading back the protocol's decimal text of a value gives that value |
| GoNumbers.FormatGRoundTrip | sng-export.go:80 | below 10^6, `%g` writes digits that read back as the same value |
| GoNumbers.ScientificDenotes | sng-export.go:80 | from 10^6 on, `%g` uses an exponent of at least 6, and its significant digits times the power of ten are the value |
| GoNumbers.StripZeros | sng-export.go:80 | the digits without trailing zeros, a prefix followed only by zeros |
| GoNumbers.FormatGHasNoSpace | sng-export.go:80 | `%g` output holds no space |
| SngRecord.ChunksJoin | sng-export.go:100 | the chunks are one to six pieces, joining back to the trimmed line, `;`-free except possibly the sixth |
| SngRecord.ParseLine | sng-export.go:98-109 | a record exactly when the sixth chunk parses; its first five fields are the first five chunks verbatim; otherwise the rejected sixth chunk |
| SngRecord.ParseLineText | sng-export.go:98-109 | the trimmed line of a parsed record is its five `;`-free fields and the value's text, separated by `;` |
| SngRecord.ParseRecordLine | sng_exporter.go:42-53 | `parseLine` reads back, unchanged, every record line syslog-ng can write |
| SngRecord.RecordLineStart | sng-export.go:172 | a record line ends in a newline and starts with its object type's first character, or `;` |
| SngRecord.FieldCount | sng-export.go:100-101 | `chunk[5]` exists exactly when the trimmed line holds at least five `;` |
| SngRecord.SeparatorNotNumber | sng-export.go:101 | a value field holding `;` does not parse |
| SngRecord.ExtraSeparator | sng-export.go:100-104 | with six or more `;` the capped split keeps the extra ones in the value, which fails to parse |
| SngRecord.CountJoin | sng-export.go:100 | joining separator-free pieces adds one separator per gap |
| TextFormat.Labels | sng-export.go:81 | one `name="value"` label per pair, in order |
| TextFormat.LabelSetOfThree | sng-export.go:81-82 | three label pairs in braces, separated by commas |
| TextFormat.SampleTextOfThreeIs | sng_exporter.go:33-34 | the literal pieces of the sample line are the exposition format's name, label set, space and value |
| TextFormat.SampleTextValue | sng-export.go:79-83 | for values below 10^6 in magnitude, which `%g` writes as plain digits, the text after a sample line's last space reads back as the value |
| TextFormat.SampleTextName | sng-export.go:79-83 | the text before a sample line's first `{` is the metric name |
| TextFormat.TypeTextFields | sng-export.go:74-77 | a type line splits at spaces into `#`, `TYPE`, the name and the kind |
| SngExport.GetIPAddr | sng-export.go:16-23 | unchanged without `:`; otherwise the proper prefix before the last `:` |
| SngExport.GetIPAddrOfHostPort | sng-export.go:16-23 | `host:port` with a colon-free port gives back the host, whatever colons it holds |
| SngExport.FirstElement | sng-export.go:35-40 | the prefix before the first `,`; the whole string exactly when it has no `,` |
| SngExport.TrimEach | sng-export.go:36-38 | every element of the address array is replaced by its trimmed text, in place |
| SngExport.GetClientIP | sng-export.go:25-44 | both headers empty: the remote address without port; a non-empty X-Forwarded-For: its first element, trimmed; otherwise X-Real-Ip |
| SngExport.TypeLineText | sng-export.go:74-77 | `CreateTypeLine` is `# TYPE <name> <kind>` |
| SngExport.MetricLineText | sng-export.go:79-83 | `CreateMetricLine` is the name, the labels `id`, `sng_instance` and `state` holding the fields verbatim, a space and `%g` of the value |
| SngExport.CreateMetricName | sng-export.go:85-96 | no metric name holds a `.` |
| SngExport.MetricNameShape | sng-export.go:85-96 | kind `c…`: `sng_<ot>_<st>_total`; kind `g…`: `sng_<ot>_<st>`; other kinds: empty; dots become `_` and no name holds `.` |
| MetricNames.JoinedName | sng-export.go:90-95 | the joined name pieces, written out |
| MetricNames.NameReplace | sng-export.go:95 | replacing dots in the joined name replaces them field by field and leaves none |
| SngExport.NameDeterminedByTypes | sng-export.go:85-96 | records with equal object type and stat type get equal names for the same kind |
| SngExport.MetricKindOf | sng-export.go:186-191 | gauge exactly when the stat type starts `co`, `me` or `qu`, counter otherwise |
| SngExport.Outcomes | sng-export.go:169-207 | one loop outcome per line |
| SngExport.OutcomeAt | sng-export.go:169-207 | the outcome of line k is the loop body's verdict on line k |
| SngExport.Step | sng-export.go:169-191 | the loop stops exactly at a line starting with `.`; fewer than six fields panic; an unparsable value is skipped; an exported line parsed to a kept record, with kind gauge or counter |
| SngExport.RecordStep | sng-export.go:182-193 | a parsed record is skipped exactly when its state is `o` or `d`; an exported one has a stat type of at least two characters, kind gauge or counter, and the name `CreateMetricName` gives, free of `.` |
| SngExport.StepOfRecord | sng-export.go:170-191 | a record line is skipped in state `o`/`d`, panics with a stat type shorter than two, and is exported otherwise |
| SngExport.StepOfFieldCount | sng-export.go:176-180 | fewer than five `;` panic; more than five are skipped |
| SngExport.EmittedAppend | sng-export.go:169-207 | the samples of consecutive runs of lines are those of each run, in order |
| SngExport.FirstHalt | sng-export.go:172-174 | the first outcome that ends the loop: none before it halts and it halts unless it is the end of the lines |
| SngExport.PassesHere | sng-export.go:169-207 | a line that neither stops nor panics moves the first halting line on by one |
| SngExport.EmittedNext | sng-export.go:176-206 | one more line adds its sample if it has one |
| SngExport.LinesAppend | sng-export.go:193-206 | samples, declared names and declaration counts of consecutive lines add up |
| SngExport.ExpositionSnoc | sng-export.go:195-206 | one more sample appends its type line if its name is new, then its sample line |
| SngExport.ExpositionSamples | sng-export.go:204-206 | every exported sample line is written, once and in order |
| SngExport.ExpositionDeclared | sng-export.go:195-202 | the names declared are exactly the names of the samples |
| SngExport.ExpositionLength | sng-export.go:193-206 | the exposition has one line per sample plus one `# TYPE` line per distinct metric name |
| SngExport.DeclOnce | sng-export.go:195-202 | each metric name is declared exactly once if some sample has it, and never otherwise |
| SngExport.DeclBeforeFirstSample | sng-export.go:193-205 | a type line is immediately followed by a sample of that name and kind, and no sample of that name comes before it |
| SngExport.SampleAfterDecl | sng-export.go:195-206 | every sample line follows the type line of its name |
| SngExport.TextsOfTwo | sng-export.go:200-205 | two lines are written as their two texts |
| SngExport.ExpositionText | sng-export.go:193-206 | one more sample adds its type line text only when its name was not yet declared, then its sample line text, and adds its name to the declared set |
| SngExport.TextsAppend | sng-export.go:200-205 | the text of consecutive lines is the text of each part |
| SngExport.StageLength | sng-export.go:112-164 | each health stage adds the lengths of its type line and status line |
| SngExport.TotalLengthAppend | sng-export.go:114-209 | the byte count of consecutive outputs adds up |
| SngExport.AppendSample | sng-export.go:193-206 | the type text is written and its name recorded in `typeName` only if the name is new; the sample line is always written |
| SngExport.ReadStep | sng-export.go:170-180 | the tests of the loop body in the source's order (terminator, `chunk[5]`, `ParseFloat`) reach the outcome `Step` specifies |
| SngExport.KeepStep | sng-export.go:182-204 | the state filter, the classifier's `statType[0:2]`, and the name, kind and sample line of a kept record reach the outcome `RecordStep` specifies |
| SngExport.ReadLine | sng-export.go:170-206 | stops on `.`, panics on fewer than six fields or a short stat type, skips bad values and `o`/`d` states, and otherwise appends the record's sample; nothing changes unless a sample is written |
| SngExport.ExportLines | sng-export.go:166-207 | the body is the exposition of the samples before the first halting line; it panicked exactly when that line is a panic; the byte count is the body's length |
| SngExport.GetSNGStats | sng-export.go:111-210 | a dial, write or read failure writes the health lines up to that stage with status 0 and stops; otherwise the healthy health lines plus the body; `txBytes` is the output's length without newlines |
| SngExporter.TypeLineText | sng_exporter.go:26-29 | `TypeLine` is `# TYPE <name> <kind>`, also for the empty kind |
| SngExporter.MetricLineText | sng_exporter.go:31-35 | `MetricLine` is the name, the labels `sngId`, `sngInstance` and `sngState` holding the fields verbatim, a space and `%g` of the value |
| SngExporter.MetricNameShape | sng_exporter.go:37-40 | `sng_<ot>_<st>` with dots turned into `_`, never a suffix and no `.` |
| SngExporter.MetricNameAcrossVariants | sng_exporter.go:37-40 | the older name equals the newer gauge name, and the newer counter name is it plus `_total` |
| SngExporter.Assigned | sng_exporter.go:99-119 | only records whose object type starts `src.` or `dst.` set a kind; the kind set is counter or gauge, and gauge only under `dst.` |
| SngExporter.SwitchKind | sng_exporter.go:101-119 | the nested switch sets the kind that `Assigned` gives and otherwise leaves it as it was |
| SngExporter.KindAfter | sng_exporter.go:79-119 | the kind after a record is counter, gauge or the previous kind, and it changes only when the record assigns one |
| SngExporter.ReadOutcomeOfRecord | sng_exporter.go:83-119 | a record line is dropped in state `o`/`d`, crashes when the switch slices too far, and is written otherwise |
| SngExporter.ReadRecord | sng_exporter.go:81-103 | the loop's tests in order: `.` ends, fewer than six fields crash, bad values and `o`/`d` are skipped, short slices in the switch crash |
| SngExporter.KeepRecord | sng_exporter.go:94-110 | the state filter, then the slice panics of the kind switch |
| SngExporter.Exposition | sng_exporter.go:121-122 | exactly two lines per written record, with no deduplication |
| SngExporter.TextsAt | sng_exporter.go:121-122 | the k-th written text is the text of the k-th line |
| SngExporter.TextsAppend | sng_exporter.go:121-122 | the text of consecutive lines is the text of each part |
| SngExporter.RecordTexts | sng_exporter.go:121-122 | a record writes its type line under the kind after it, then its sample line |
| SngExporter.LastAssignedCons | sng_exporter.go:79 | the kind in force after a record and more records is the one the rest leave starting from the kind after that record |
| SngExporter.ExpositionAt | sng_exporter.go:79-123 | line 2j is record j's type line under the kind of the last assigning record up to j (or the initial kind), and line 2j+1 its sample line |
| SngExporter.UnsetKind | sng_exporter.go:79 | while no record assigns a kind, type lines carry the initial (empty) kind |
| SngExporter.ExpositionTextCons | sng_exporter.go:79-123 | a record's two lines come before the rest's, which start from the kind it leaves |
| SngExporter.Scraped | sng_exporter.go:80-96 | at most one record per line read, and a panic only when some line is left to read |
| SngExporter.ScrapedNext | sng_exporter.go:81-96 | the records from line i on: none once a line ends the loop, the same when it is skipped, and a kept record before the rest |
| SngExporter.ScrapedKept | sng_exporter.go:94-119 | every record written is kept by the state filter and passes the kind switch's slices |
| SngExporter.WriteNext | sng_exporter.go:99-122 | writing a record keeps "written so far" plus "still to come" and leaves the record's kind |
| SngExporter.WriteRecord | sng_exporter.go:99-122 | the kind after the record, and its type line and sample line under its name |
| SngExporter.ScrapeLine | sng_exporter.go:81-122 | one loop pass: a line that ends the loop leaves the whole exposition written and reports whether it panicked; any other line keeps the loop invariant (`Progress`) one line further on |
| SngExporter.ProgressNext | sng_exporter.go:81-122 | a pass that moves its record's two lines from "still to come" to "written" keeps the loop invariant |
| SngExporter.ProgressEnd | sng_exporter.go:80-123 | past the last line, the whole exposition is written and the loop did not panic |
| SngExporter.ReadLoop | sng_exporter.go:79-123 | two lines per record before the first halting line, the kind carried across records from the empty kind, and `panicked` exactly as that line decides |
| SngExporter.GetSNGStats | sng_exporter.go:55-123 | a dial, write or read failure writes nothing; otherwise the read loop's exposition, with `panicked` exactly as the first halting line decides |

## Left out

- HTTP serving, routing, the index pages, `logIt`, `log.Print`, flag
  parsing and `main` are not modelled. The client IP helpers are modelled
  on the header values as strings.
- Socket I/O (`net.Dial`, `c.Write`, `bufio.Reader`) is not modelled. Its
  outcome is the three success booleans and the line sequence. Closing the
  connection is not modelled.
- The older variant's `fmt.Println("parse error: ", err)` goes to standard
  output, not to the response, and is not modelled.
- Recovery from a panicking handler is not modelled. `net/http` recovers
  the goroutine and drops the response; the model stops at the panic and
  reports it, and the lines already written are what it returns.
- GoNumbers.ParseValue: only decimal integers with an optional sign are
  read. Fractions, exponents, `inf`/`nan`, hex floats and underscores are
  refused here, although `strconv.ParseFloat` accepts them.
- GoNumbers.FormatG: `%g` is modelled exactly for integral values held
  exactly. The rounding of magnitudes beyond 2^53 to float64 is not
  modelled, and neither is the shortest-representation rule for fractions.
- Strings are sequences of characters, while Go slices `[0:2]`, `[0:4]` and
  `[0:1]` by bytes. The slices differ only when a non-ASCII character falls
  inside them. The byte count differs more widely (see
  `SngExport.GetSNGStats` below).
- TextFormat.SampleTextOfThree: `strings.Join(pieces, "")` in
  `CreateMetricLine` and `MetricLine` is written as the concatenation of
  the same pieces. The two are equal for an empty separator, and the
  concatenation keeps the proofs small.
- SngExporter.WriteRecord: the older loop computes `MetricName` before the
  kind switch, whose slices may panic. The model checks those slices first
  (`KeepRecord`). `MetricName` is pure, so nothing observable changes.
- The `typeName` map's values (always `1`) play no part. Only its keys are
  stated.
- TextFormat.SampleTextValue: the read-back is proved only for magnitudes
  below 10^6. From 10^6 on, `%g` writes an exponent form (`1.234567e+06`),
  and the integer-only value reader does not read that form back.
- GoNumbers.ParseValue: `strconv.ParseFloat` returns a range error for an
  integer too large for a float64, that is, one of magnitude at least
  2^1024 - 2^970. `parseLine` then fails and the loop skips the line. The
  model accepts every integer, so it would export such a line.
- SngExport.GetSNGStats: `txBytes` adds Go's `len`, which counts UTF-8
  bytes, while `TotalLength` counts characters. The two differ for any
  output line that holds a non-ASCII character, for example in an instance
  path.
