/** What the published labels tell: the reports' and the vulnerabilities' data can be read back from the series. */
module ReadBack {
  import opened Metrics
  import opened Gauges
  import opened Reports
  import opened Severities

  /** The target list that the alias `all` gives, in any order. */
  predicate IsAll(targets: seq<VulnerabilityLabel>) {
    FromTable(targets) && NameSet(targets) == NameSet(METRIC_LABELS)
  }

  lemma AllHasEach(targets: seq<VulnerabilityLabel>, i: int)
    requires IsAll(targets) && 0 <= i < |METRIC_LABELS|
    ensures METRIC_LABELS[i].name in ScopeNames(targets, METRIC_LABELS[i].scope)
  {
    var l := METRIC_LABELS[i];
    assert l in METRIC_LABELS && l.name in NameSet(targets);
    var t :| t in targets && t.name == l.name;
    TableIsDistinct();
    assert t in METRIC_LABELS;
  }

  // ---- Reports ---------------------------------------------------------

  datatype ScannedImage = ScannedImage(registry: string, repository: string, tag: string, digest: string)

  function Or<T>(o: Option<T>, default: T): T {
    if o.Some? then o.value else default
  }

  /** The image a report speaks of; what a scanner does not say stays empty. */
  function ImageOf(r: Report): ScannedImage {
    match r
    case Kubescape(None, digest, _) => ScannedImage("", "", "", Or(digest, ""))
    case Kubescape(Some(ref), digest, _) => ScannedImage(ref.domain, ref.path, Or(ref.tag, ""), Or(digest, ""))
    case Trivy(registry, repository, tag, digest, _, _) => ScannedImage(registry, repository, tag, digest)
  }

  /** What follows the namespace and its slash in a report's joined name. */
  function NameAfter(namespace: string, reportName: string): string {
    if |namespace| < |reportName| then reportName[|namespace| + 1..] else ""
  }

  predicate TellsTheReport(m: Labels) {
    && "scanner" in m && REPORT_NAME in m && "image_namespace" in m
    && "image_registry" in m && "image_repository" in m && "image_tag" in m && "image_digest" in m
  }

  function KeyFrom(m: Labels): Key
    requires TellsTheReport(m)
  {
    Key(if m["scanner"] == "kubescape" then KubescapeScanner else TrivyScanner, m["image_namespace"],
        NameAfter(m["image_namespace"], m[REPORT_NAME]))
  }

  function ImageFrom(m: Labels): ScannedImage
    requires TellsTheReport(m)
  {
    ScannedImage(m["image_registry"], m["image_repository"], m["image_tag"], m["image_digest"])
  }

  lemma NameComesBack(k: Key)
    ensures NameAfter(k.namespace, k.String()) == k.name
  {
    assert k.String()[|k.namespace| + 1..] == k.name;
  }

  /** The labels that speak of the report as a whole; they lead the table. */
  const REPORT_LABELS: set<string> := {"scanner", REPORT_NAME, "image_namespace", "image_registry",
                                       "image_repository", "image_tag", "image_digest"}

  lemma ReportLabelsLead(n: string)
    requires n in REPORT_LABELS
    ensures 0 <= Position(n) < 7 && METRIC_LABELS[Position(n)].name == n
    ensures METRIC_LABELS[Position(n)].scope == ReportScope && GroupSummary in METRIC_LABELS[Position(n)].groups
  {
    Positions();
    assert METRIC_LABELS[Position(n)].groups[1] == GroupSummary;
  }

  lemma SummaryHasReportLabels()
    ensures REPORT_LABELS <= ScopeNames(SummaryLabels(), ReportScope)
  {
    InGroupMembers(METRIC_LABELS, GroupSummary);
    forall n | n in REPORT_LABELS
      ensures n in ScopeNames(SummaryLabels(), ReportScope)
    {
      ReportLabelsLead(n);
      assert METRIC_LABELS[Position(n)] in METRIC_LABELS;
    }
  }

  lemma AllHasReportLabels(targets: seq<VulnerabilityLabel>)
    requires IsAll(targets)
    ensures REPORT_LABELS <= ScopeNames(targets, ReportScope)
  {
    forall n | n in REPORT_LABELS
      ensures n in ScopeNames(targets, ReportScope)
    {
      ReportLabelsLead(n);
      AllHasEach(targets, Position(n));
    }
  }

  lemma ValuesTellTheReport(k: Key, r: Report, m: Labels)
    requires r.Of(k.scanner)
    requires forall n | n in REPORT_LABELS :: n in m && m[n] == ReportValue(n, k, r)
    ensures TellsTheReport(m) && KeyFrom(m) == k && ImageFrom(m) == ImageOf(r)
  {
    NameComesBack(k);
  }

  /** Every summary series tells its report, with scanner, namespace, name and image, and its severity. */
  lemma SummaryTellsTheReport(k: Key, r: Report, severity: string)
    requires r.Of(k.scanner)
    ensures var m := SeveritySeries(Base(k, r), severity).labels;
            TellsTheReport(m) && KeyFrom(m) == k && ImageFrom(m) == ImageOf(r)
            && "severity" in m && m["severity"] == severity
  {
    SummaryHasReportLabels();
    SummaryLabelFacts();
    ValuesTellTheReport(k, r, SeveritySeries(Base(k, r), severity).labels);
  }

  /** So does every detail series, when all labels are exposed. */
  lemma DetailTellsTheReport(targets: seq<VulnerabilityLabel>, k: Key, r: Report, i: int)
    requires IsAll(targets) && r.Of(k.scanner) && 0 <= i < VulnerabilityCount(r)
    ensures var m := DetailWrite(targets, k, r, i).series.labels;
            TellsTheReport(m) && KeyFrom(m) == k && ImageFrom(m) == ImageOf(r)
  {
    AllHasReportLabels(targets);
    DetailLabelSet(targets, k, r, i);
    ValuesTellTheReport(k, r, DetailWrite(targets, k, r, i).series.labels);
  }

  // ---- Counters --------------------------------------------------------

  function CounterFrom(g: Store, base: Labels, severity: string): int {
    var s := SeveritySeries(base, severity);
    if s in g then g[s].Floor else -1
  }

  function TrivySummaryFrom(g: Store, base: Labels): TrivySummary {
    TrivySummary(CounterFrom(g, base, "CRITICAL"), CounterFrom(g, base, "HIGH"), CounterFrom(g, base, "MEDIUM"),
                 CounterFrom(g, base, "LOW"), CounterFrom(g, base, "UNKNOWN"))
  }

  /** A Trivy report's own summary is what its five counters show. */
  lemma CountersTellTheSummary(k: Key, r: Report)
    requires r.Trivy?
    ensures TrivySummaryFrom(SummaryStore(k, r), Base(k, r)) == r.summary
  {
    forall s | s in Counts(r)
      ensures CounterFrom(SummaryStore(k, r), Base(k, r), s) == Counts(r)[s].Floor
    {
      assert SeveritySeries(Base(k, r), s) in SummaryStore(k, r);
    }
  }

  // ---- Vulnerabilities -------------------------------------------------

  /** The labels that speak of one vulnerability; they end the table. */
  const VULNERABILITY_LABELS: set<string> := {"severity", "vulnerability_id", "vulnerable_resource_name",
    "installed_resource_version", "fixed_resource_version", "vulnerability_title", "vulnerability_link",
    "vulnerability_published_date", "vulnerability_target", "vulnerability_class"}

  predicate TellsTheVulnerability(m: Labels) {
    VULNERABILITY_LABELS <= m.Keys
  }

  lemma VulnerabilityLabelsFollow(n: string)
    requires n in VULNERABILITY_LABELS
    ensures 7 <= Position(n) < |METRIC_LABELS| && METRIC_LABELS[Position(n)].name == n
    ensures METRIC_LABELS[Position(n)].scope == VulnerabilityScope
  {
    Positions();
  }

  lemma AllHasVulnerabilityLabels(targets: seq<VulnerabilityLabel>)
    requires IsAll(targets)
    ensures VULNERABILITY_LABELS <= ScopeNames(targets, VulnerabilityScope)
  {
    forall n | n in VULNERABILITY_LABELS
      ensures n in ScopeNames(targets, VulnerabilityScope)
    {
      VulnerabilityLabelsFollow(n);
      AllHasEach(targets, Position(n));
    }
  }

  function FindingFrom(m: Labels): Finding
    requires TellsTheVulnerability(m)
  {
    Finding(m["vulnerability_id"], m["vulnerable_resource_name"], m["installed_resource_version"],
            m["fixed_resource_version"], m["vulnerability_title"], m["vulnerability_link"], m["severity"],
            m["vulnerability_published_date"], m["vulnerability_target"], m["vulnerability_class"], None)
  }

  function MatchFrom(m: Labels): Match
    requires TellsTheVulnerability(m)
  {
    Match(m["vulnerability_id"], m["severity"], m["vulnerability_title"], [m["vulnerability_link"]],
          [m["fixed_resource_version"]], m["vulnerable_resource_name"], m["installed_resource_version"], [])
  }

  lemma ValuesTellTheFinding(f: Finding, m: Labels)
    requires forall n | n in VULNERABILITY_LABELS :: n in m && m[n] == FindingValue(n, f)
    ensures TellsTheVulnerability(m) && FindingFrom(m) == f.(score := None)
  {
  }

  /** With all labels exposed, a Trivy detail series tells its finding but for the score. */
  lemma SeriesTellsTheFinding(targets: seq<VulnerabilityLabel>, k: Key, r: Report, i: int)
    requires IsAll(targets) && r.Trivy? && 0 <= i < |r.findings|
    ensures var m := DetailWrite(targets, k, r, i).series.labels;
            TellsTheVulnerability(m) && FindingFrom(m) == r.findings[i].(score := None)
  {
    AllHasVulnerabilityLabels(targets);
    DetailLabelSet(targets, k, r, i);
    ValuesTellTheFinding(r.findings[i], DetailWrite(targets, k, r, i).series.labels);
  }

  /** So two findings of a report share a series, and the later one's score wins, exactly if they differ in nothing
      but the score. */
  lemma FindingsShareASeriesIff(targets: seq<VulnerabilityLabel>, k: Key, r: Report, i: int, j: int)
    requires IsAll(targets) && r.Trivy? && 0 <= i < |r.findings| && 0 <= j < |r.findings|
    ensures DetailWrite(targets, k, r, i).series == DetailWrite(targets, k, r, j).series
       <==> r.findings[i].(score := None) == r.findings[j].(score := None)
  {
    SeriesTellsTheFinding(targets, k, r, i);
    SeriesTellsTheFinding(targets, k, r, j);
    if r.findings[i].(score := None) == r.findings[j].(score := None) {
      ScoreIsNoLabel(r.findings[i], r.findings[j], targets);
    }
  }

  lemma ScoreIsNoLabel(f: Finding, g: Finding, targets: seq<VulnerabilityLabel>)
    requires f.(score := None) == g.(score := None)
    ensures FindingValues(f, targets) == FindingValues(g, targets)
  {
  }

  /** A match as a series can show it: in capitals, with a description, and one link and one fix at most. */
  function Shown(m: Match): Match {
    m.(severity := ToUpper(m.severity), description := if m.description != "" then m.description else m.id,
       urls := [if m.urls == [] then "" else m.urls[0]],
       fixVersions := [if m.fixVersions == [] then "" else m.fixVersions[0]], cvss := [])
  }

  lemma ValuesTellTheMatch(x: Match, m: Labels)
    requires forall n | n in VULNERABILITY_LABELS :: n in m && m[n] == MatchValue(n, x)
    ensures TellsTheVulnerability(m) && MatchFrom(m) == Shown(x)
  {
  }

  /** A Kubescape detail series tells its match as far as labels show matches. */
  lemma SeriesTellsTheMatch(targets: seq<VulnerabilityLabel>, k: Key, r: Report, i: int)
    requires IsAll(targets) && r.Kubescape? && 0 <= i < |r.matches|
    ensures var m := DetailWrite(targets, k, r, i).series.labels;
            && TellsTheVulnerability(m) && MatchFrom(m) == Shown(r.matches[i])
            && SameButCase(r.matches[i].severity, m["severity"]) && (forall c | c in m["severity"] :: c !in SMALL)
  {
    CapitalsOf(r.matches[i].severity);
    AllHasVulnerabilityLabels(targets);
    DetailLabelSet(targets, k, r, i);
    ValuesTellTheMatch(r.matches[i], DetailWrite(targets, k, r, i).series.labels);
  }
}
