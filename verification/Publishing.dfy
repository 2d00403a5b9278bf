/** The loops that turn a report into gauge series, on gauge vectors and label maps that they change in place. */
module Publishing {
  import opened Metrics
  import opened Gauges
  import opened Reports
  import opened Scores
  import opened Severities

  /** A label map; one is shared by all iterations of the loop that publishes the counters. */
  class LabelMap {
    var m: Labels

    constructor ()
      ensures m == map[]
    {
      m := map[];
    }
  }

  class GaugeVec {
    const gauge: Gauge
    const names: set<string>
    var series: Store

    ghost predicate Valid()
      reads this
    {
      forall s | s in series :: s.gauge == gauge
    }

    constructor (gauge: Gauge, names: set<string>)
      ensures Valid() && series == map[] && this.gauge == gauge && this.names == names
    {
      this.gauge, this.names, series := gauge, names, map[];
    }

    /** `With(labels).Set(value)`; `With` panics on any other label names than the declared ones. */
    method Set(labels: LabelMap, value: real)
      requires Valid() && labels.m.Keys == names
      modifies this
      ensures Valid() && series == Put(old(series), Write(Series(gauge, labels.m), value))
      ensures series == old(series)[Series(gauge, labels.m) := value]
    {
      series := series[Series(gauge, labels.m) := value];
    }

    method DeletePartialMatch(name: string) returns (deleted: int)
      requires Valid()
      modifies this
      ensures Valid() && series == Clear(old(series), gauge, name)
      ensures forall s :: s in series <==>
                s in old(series) && !("report_name" in s.labels && s.labels["report_name"] == name)
      ensures forall s | s in series :: series[s] == old(series)[s]
      ensures deleted == |old(series)| - |series|
    {
      var kept := map s | s in series && !HasName(s, name) :: series[s];
      deleted := |series| - |kept|;
      series := kept;
    }
  }

  // ---- Counting --------------------------------------------------------

  function CountsIn(severities: set<string>, matches: seq<Match>): map<string, real> {
    map s | s in severities :: CountOf(matches, s) as real
  }

  lemma CountExtended(matches: seq<Match>, i: nat, n: string, s: string)
    requires i < |matches| && n == Normalise(matches[i].severity)
    ensures CountOf(matches[..i + 1], s) == CountOf(matches[..i], s) + if s == n then 1 else 0
  {
    assert matches[..i + 1][..i] == matches[..i];
  }

  lemma CountsExtended(severities: set<string>, matches: seq<Match>, i: nat, n: string)
    requires i < |matches| && n == Normalise(matches[i].severity) && n in severities
    ensures var before := CountsIn(severities, matches[..i]);
            CountsIn(severities, matches[..i + 1]) == before[n := before[n] + 1.0]
  {
    forall s | s in severities
      ensures CountOf(matches[..i + 1], s) == CountOf(matches[..i], s) + if s == n then 1 else 0
    {
      CountExtended(matches, i, n, s);
    }
  }

  lemma SeverityCounter(severity: string)
    ensures Normalise(severity) in KUBESCAPE_SEVERITIES
    ensures Normalise(severity) == if ToUpper(severity) in KUBESCAPE_SEVERITIES then ToUpper(severity) else "UNKNOWN"
  {
  }

  lemma CountsSpell(matches: seq<Match>)
    ensures forall n | n in KUBESCAPE_SEVERITIES && n != "UNKNOWN" ::
              CountsIn(KUBESCAPE_SEVERITIES, matches)[n] == |Spelling(matches, n)| as real
  {
    forall n | n in KUBESCAPE_SEVERITIES && n != "UNKNOWN"
      ensures CountsIn(KUBESCAPE_SEVERITIES, matches)[n] == |Spelling(matches, n)| as real
    {
      CountIsOfSpellings(matches, n);
    }
  }

  method CountPerSeverity(matches: seq<Match>) returns (counts: map<string, real>)
    ensures counts == CountsIn(KUBESCAPE_SEVERITIES, matches)
    ensures forall n | n in KUBESCAPE_SEVERITIES && n != "UNKNOWN" :: counts[n] == |Spelling(matches, n)| as real
  {
    var severities := KUBESCAPE_SEVERITIES;
    counts := map s | s in severities :: 0.0;
    assert matches[..0] == [];
    for i := 0 to |matches|
      invariant counts == CountsIn(severities, matches[..i])
    {
      SeverityCounter(matches[i].severity);
      CountsExtended(severities, matches, i, Normalise(matches[i].severity));
      var severity := ToUpper(matches[i].severity);
      if severity in counts {
        counts := counts[severity := counts[severity] + 1.0];
      } else {
        counts := counts["UNKNOWN" := counts["UNKNOWN"] + 1.0];
      }
    }
    assert matches[..|matches|] == matches;
    CountsSpell(matches);
  }

  // ---- Values ----------------------------------------------------------

  method ValuesForReport(k: Key, r: Report, labels: seq<VulnerabilityLabel>) returns (result: LabelMap)
    ensures fresh(result) && result.m == ReportValues(k, r, labels)
  {
    result := new LabelMap();
    for i := 0 to |labels|
      invariant fresh(result) && result.m == ReportValues(k, r, labels[..i])
    {
      ScopeNamesExtended(labels, i, ReportScope);
      if labels[i].scope == ReportScope {
        result.m := result.m[labels[i].name := ReportValue(labels[i].name, k, r)];
      }
    }
    assert labels[..|labels|] == labels;
  }

  method ValuesForMatch(m: Match, labels: seq<VulnerabilityLabel>) returns (result: LabelMap)
    ensures fresh(result) && result.m == MatchValues(m, labels)
  {
    result := new LabelMap();
    for i := 0 to |labels|
      invariant fresh(result) && result.m == MatchValues(m, labels[..i])
    {
      ScopeNamesExtended(labels, i, VulnerabilityScope);
      if labels[i].scope == VulnerabilityScope {
        result.m := result.m[labels[i].name := MatchValue(labels[i].name, m)];
      }
    }
    assert labels[..|labels|] == labels;
  }

  method ValuesForFinding(f: Finding, labels: seq<VulnerabilityLabel>) returns (result: LabelMap)
    ensures fresh(result) && result.m == FindingValues(f, labels)
  {
    result := new LabelMap();
    for i := 0 to |labels|
      invariant fresh(result) && result.m == FindingValues(f, labels[..i])
    {
      ScopeNamesExtended(labels, i, VulnerabilityScope);
      if labels[i].scope == VulnerabilityScope {
        result.m := result.m[labels[i].name := FindingValue(labels[i].name, f)];
      }
    }
    assert labels[..|labels|] == labels;
  }

  lemma ScopeNamesExtended(labels: seq<VulnerabilityLabel>, i: nat, scope: Scope)
    requires i < |labels|
    ensures ScopeNames(labels[..i + 1], scope)
         == ScopeNames(labels[..i], scope) + if labels[i].scope == scope then {labels[i].name} else {}
  {
    assert labels[..i + 1] == labels[..i] + [labels[i]];
  }

  /** The inner loop that copies the report's values over a vulnerability's. */
  method Include(into: LabelMap, values: LabelMap)
    requires into != values
    modifies into
    ensures into.m == old(into.m) + values.m
  {
    var todo := values.m.Keys;
    while todo != {}
      invariant todo <= values.m.Keys && values.m == old(values.m)
      invariant into.m == old(into.m) + (map n | n in values.m && n !in todo :: values.m[n])
      decreases todo
    {
      var n :| n in todo;
      into.m := into.m[n := values.m[n]];
      todo := todo - {n};
    }
  }

  // ---- Summaries -------------------------------------------------------

  /**
   * Every round of the loop writes the severity into the one map it shares, and the rounds come in any order; still the
   * series are those of the unchanged base labels with each severity, and its own count.
   */
  method PublishSummary(vec: GaugeVec, values: LabelMap, counts: map<string, real>)
    requires vec.Valid() && vec.gauge == Summary && vec.names == values.m.Keys + {"severity"}
    modifies vec, values
    ensures vec.Valid() && vec.series == old(vec.series) + CountStore(old(values.m), counts)
  {
    ghost var base, before := values.m, vec.series;
    ghost var order: seq<string> := [];
    var todo := counts.Keys;
    while todo != {}
      invariant vec.Valid() && todo <= counts.Keys
      invariant IsOrder(order, counts.Keys - todo)
      invariant forall s | s in order :: s in counts
      invariant base.Keys + {"severity"} == values.m.Keys + {"severity"}
      invariant values.m["severity" := ""] == base["severity" := ""]
      invariant vec.series == PutAll(before, CountWrites(base, counts, order))
      decreases todo
    {
      var severity :| severity in todo;
      var v := values;
      Overwritten(values.m, base, severity);
      v.m := v.m["severity" := severity];
      OrderExtended(order, counts.Keys - todo, severity);
      WritesExtended(base, counts, before, order, severity);
      vec.Set(v, counts[severity]);
      todo := todo - {severity};
      order := order + [severity];
      assert counts.Keys - todo == (counts.Keys - (todo + {severity})) + {severity};
    }
    assert counts.Keys - todo == counts.Keys;
    CountOrderIrrelevant(base, counts, order);
    PutAllIsImage(before, CountWrites(base, counts, order));
  }

  lemma Overwritten(m: Labels, base: Labels, severity: string)
    requires m["severity" := ""] == base["severity" := ""]
    ensures m["severity" := severity] == base["severity" := severity]
    ensures m["severity" := severity]["severity" := ""] == base["severity" := ""]
  {
    assert m["severity" := ""]["severity" := severity] == m["severity" := severity];
    assert base["severity" := ""]["severity" := severity] == base["severity" := severity];
    assert m["severity" := severity]["severity" := ""] == m["severity" := ""];
  }

  lemma OrderExtended(order: seq<string>, done: set<string>, severity: string)
    requires IsOrder(order, done) && severity !in done
    ensures IsOrder(order + [severity], done + {severity})
  {
    OrderWithin(order, done);
    assert forall s :: s in order + [severity] <==> s in order || s == severity;
    assert (set s | s in order + [severity]) == (set s | s in order) + {severity};
  }

  lemma WritesExtended(base: Labels, counts: map<string, real>, before: Store, order: seq<string>, severity: string)
    requires severity in counts && forall s | s in order :: s in counts
    ensures forall s | s in order + [severity] :: s in counts
    ensures PutAll(before, CountWrites(base, counts, order + [severity]))
         == Put(PutAll(before, CountWrites(base, counts, order)), CountWrite(base, counts, severity))
  {
    var ws := CountWrites(base, counts, order + [severity]);
    assert ws[..|ws| - 1] == CountWrites(base, counts, order);
  }

  // ---- Details ---------------------------------------------------------

  method Score(cvss: seq<Cvss>) returns (score: real)
    ensures score == ScoreFrom(cvss, "", 0.0)
  {
    score := 0.0;
    var highestVersion := "";
    for i := 0 to |cvss|
      invariant ScoreFrom(cvss, "", 0.0) == ScoreFrom(cvss[i..], highestVersion, score)
    {
      assert cvss[i..][0] == cvss[i] && cvss[i..][1..] == cvss[i + 1..];
      if cvss[i].version == PREFERRED_CVSS_VERSION {
        score := cvss[i].baseScore;
        break;
      }
      if Less(highestVersion, cvss[i].version) {
        highestVersion := cvss[i].version;
        score := cvss[i].baseScore;
      }
    }
  }

  lemma DetailsExtended(targets: seq<VulnerabilityLabel>, k: Key, r: Report, before: Store, i: nat)
    requires targets != [] && i < VulnerabilityCount(r)
    ensures PutAll(before, DetailWrites(targets, k, r)[..i + 1])
         == Put(PutAll(before, DetailWrites(targets, k, r)[..i]), DetailWrite(targets, k, r, i))
  {
    PutOneMore(before, DetailWrites(targets, k, r), i);
  }

  lemma DetailNames(targets: seq<VulnerabilityLabel>, k: Key, r: Report)
    requires FromTable(targets)
    ensures ReportValues(k, r, targets).Keys == ScopeNames(targets, ReportScope)
    ensures ScopeNames(targets, VulnerabilityScope) + ScopeNames(targets, ReportScope) == NameSet(targets)
  {
    ScopesAreDisjoint(targets);
  }

  /** The labels and the score of one vulnerability, before the report's labels come in. */
  method VulnerabilityAt(targets: seq<VulnerabilityLabel>, r: Report, i: nat) returns (values: LabelMap, score: real)
    requires i < VulnerabilityCount(r)
    ensures fresh(values)
    ensures values.m.Keys == ScopeNames(targets, VulnerabilityScope)
    ensures forall k :: DetailWrite(targets, k, r, i)
                     == Write(Series(Details, values.m + ReportValues(k, r, targets)), score)
  {
    if r.Kubescape? {
      values := ValuesForMatch(r.matches[i], targets);
      score := Score(r.matches[i].cvss);
    } else {
      values := ValuesForFinding(r.findings[i], targets);
      score := if r.findings[i].score.Some? then r.findings[i].score.value else 0.0;
    }
  }

  method PublishDetails(vec: GaugeVec, targets: seq<VulnerabilityLabel>, k: Key, r: Report)
    requires vec.Valid() && vec.gauge == Details && vec.names == NameSet(targets)
    requires FromTable(targets) && targets != []
    modifies vec
    ensures vec.Valid() && vec.series == PutAll(old(vec.series), DetailWrites(targets, k, r))
    ensures forall i | IsLast(targets, k, r, i) ::
              var w := DetailWrite(targets, k, r, i); w.series in vec.series && vec.series[w.series] == w.value
  {
    var values := ValuesForReport(k, r, targets);
    DetailNames(targets, k, r);
    ghost var before, ws := vec.series, DetailWrites(targets, k, r);
    for i := 0 to VulnerabilityCount(r)
      invariant vec.Valid() && fresh(values) && values.m == ReportValues(k, r, targets)
      invariant vec.series == PutAll(before, ws[..i])
    {
      var vulnValues, score := VulnerabilityAt(targets, r, i);
      Include(vulnValues, values);
      DetailsExtended(targets, k, r, before, i);
      vec.Set(vulnValues, score);
    }
    assert ws[..|ws|] == ws;
    forall i | IsLast(targets, k, r, i)
      ensures var w := DetailWrite(targets, k, r, i); w.series in vec.series && vec.series[w.series] == w.value
    {
      VectorShowsScores(before, targets, k, r, i);
    }
  }
}
