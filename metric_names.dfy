/**
 * What the two exporters share in naming their metrics: the two kinds a
 * `# TYPE` line declares, and how a name built from `sng`, a record's object
 * type and stat type (and a suffix) comes out once its dots are replaced.
 */
module MetricNames {
  import opened GoStrings
  import opened SngRecord

  const Counter := "counter"
  const Gauge := "gauge"

  /** The joined name pieces, written out with their underscores. */
  lemma JoinedName(objectType: string, statType: string)
    ensures Join(["sng", objectType, statType, "total"], "_") == "sng_" + objectType + "_" + statType + "_total"
    ensures Join(["sng", objectType, statType], "_") == "sng_" + objectType + "_" + statType + ""
  {
    JoinPrepend(statType, ["total"], "_");
    JoinPrepend(objectType, [statType, "total"], "_");
    JoinPrepend("sng", [objectType, statType, "total"], "_");
    JoinPrepend(objectType, [statType], "_");
    JoinPrepend("sng", [objectType, statType], "_");
  }

  /** Replacing the dots of a joined name replaces them field by field and leaves none. */
  lemma NameReplace(m: SNGData, suffix: string)
    requires '.' !in suffix
    ensures var r := ReplaceAll("sng_" + m.objectType + "_" + m.statType + suffix, '.', '_');
      && r == "sng_" + ReplaceAll(m.objectType, '.', '_') + "_" + ReplaceAll(m.statType, '.', '_') + suffix
      && '.' !in r
  {
    var r := ReplaceAll("sng_" + m.objectType + "_" + m.statType + suffix, '.', '_');
    ReplaceAllAppend("sng_" + m.objectType + "_" + m.statType, suffix, '.', '_');
    ReplaceAllAppend("sng_" + m.objectType + "_", m.statType, '.', '_');
    ReplaceAllAppend("sng_" + m.objectType, "_", '.', '_');
    ReplaceAllAppend("sng_", m.objectType, '.', '_');
    ReplaceAllUnchanged("sng_", '.', '_');
    ReplaceAllUnchanged("_", '.', '_');
    ReplaceAllUnchanged(suffix, '.', '_');
    assert forall i :: 0 <= i < |r| ==> r[i] != '.';
  }
}
