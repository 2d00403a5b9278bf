/** Scanner reports and the series that belong to them. */
module Reports {
  import opened Metrics
  import opened Gauges

  datatype Option<+T> = None | Some(value: T)

  datatype Scanner = KubescapeScanner | TrivyScanner

  /** A report's identity; `scanner` tells the two custom resources apart. */
  datatype Key = Key(scanner: Scanner, namespace: string, name: string)
  {
    /** `types.NamespacedName.String()`, which is also what the ring hashes and the detail store keys on. */
    function String(): string {
      namespace + "/" + name
    }
  }

  /** A parsed image reference: registry domain, path and, when it is tagged, a tag. */
  datatype ImageRef = ImageRef(domain: string, path: string, tag: Option<string>)

  datatype Cvss = Cvss(version: string, baseScore: real)

  datatype Match = Match(id: string, severity: string, description: string, urls: seq<string>,
                         fixVersions: seq<string>, artifactName: string, artifactVersion: string, cvss: seq<Cvss>)

  datatype Finding = Finding(id: string, resource: string, installedVersion: string, fixedVersion: string,
                             title: string, primaryLink: string, severity: string, publishedDate: string,
                             target: string, class_: string, score: Option<real>)

  datatype TrivySummary = TrivySummary(critical: int, high: int, medium: int, low: int, unknown: int)

  datatype Report =
    | Kubescape(image: Option<ImageRef>, imageDigest: Option<string>, matches: seq<Match>)
    | Trivy(registry: string, repository: string, tag: string, digest: string,
            summary: TrivySummary, findings: seq<Finding>)
  {
    predicate Of(scanner: Scanner) {
      Kubescape? <==> scanner == KubescapeScanner
    }
  }

  // ---- Identity --------------------------------------------------------

  predicate SlashFree(s: string) {
    '/' !in s
  }

  /** The joined name determines namespace and name as long as the namespace has no slash. */
  lemma NameDeterminesKey(a: Key, b: Key)
    requires SlashFree(a.namespace) && SlashFree(b.namespace)
    ensures a.String() == b.String() <==> a.namespace == b.namespace && a.name == b.name
  {
    var s, t := a.String(), b.String();
    if s == t {
      var m, n := |a.namespace|, |b.namespace|;
      assert s[m] == '/' && t[n] == '/';
      assert forall i | 0 <= i < m :: s[i] == a.namespace[i] && a.namespace[i] != '/';
      assert forall i | 0 <= i < n :: t[i] == b.namespace[i] && b.namespace[i] != '/';
      assert m == n;
      assert a.namespace == s[..m] == t[..n] == b.namespace;
      assert a.name == s[m + 1..] == t[n + 1..] == b.name;
    }
  }

  /** Clearing one report spares the series of another, whatever there is, exactly if the two differ in namespace or
      name; that they come from different scanners does not help. */
  lemma ClearSparesIffApart(a: Key, b: Key)
    requires SlashFree(a.namespace) && SlashFree(b.namespace)
    ensures (forall g: Store, v: Gauge :: View(Clear(g, v, a.String()), b.String()) == View(g, b.String()))
       <==> (a.namespace != b.namespace || a.name != b.name)
  {
    NameDeterminesKey(a, b);
    if a.String() == b.String() {
      var s := Series(Summary, map[REPORT_NAME := b.String()]);
      var g: Store := map[s := 1.0];
      assert s in View(g, b.String()) && s !in View(Clear(g, Summary, a.String()), b.String());
    } else {
      forall g: Store, v: Gauge
        ensures View(Clear(g, v, a.String()), b.String()) == View(g, b.String())
      {
        ViewAfterClear(g, v, a.String(), b.String());
      }
    }
  }

  // ---- Severities ------------------------------------------------------

  const KUBESCAPE_SEVERITIES: set<string> := {"CRITICAL", "HIGH", "MEDIUM", "LOW", "NEGLIGIBLE", "UNKNOWN"}
  const TRIVY_SEVERITIES: set<string> := {"CRITICAL", "HIGH", "MEDIUM", "LOW", "UNKNOWN"}

  function UpperChar(c: char): char {
    if 'a' <= c <= 'z' then (c as int - 32) as char else c
  }

  function ToUpper(s: string): string {
    seq(|s|, i requires 0 <= i < |s| => UpperChar(s[i]))
  }

  /** The counter that a match with this severity goes to. */
  function Normalise(severity: string): string {
    if ToUpper(severity) in KUBESCAPE_SEVERITIES then ToUpper(severity) else "UNKNOWN"
  }

  function CountOf(matches: seq<Match>, severity: string): nat
    decreases |matches|
  {
    if matches == [] then 0
    else CountOf(matches[..|matches| - 1], severity)
         + (if Normalise(matches[|matches| - 1].severity) == severity then 1 else 0)
  }

  function Counts(r: Report): (counts: map<string, real>)
    ensures counts.Keys == if r.Kubescape? then KUBESCAPE_SEVERITIES else TRIVY_SEVERITIES
  {
    match r
    case Kubescape(_, _, matches) => map s | s in KUBESCAPE_SEVERITIES :: CountOf(matches, s) as real
    case Trivy(_, _, _, _, t, _) =>
      map s | s in TRIVY_SEVERITIES ::
        (if s == "CRITICAL" then t.critical else if s == "HIGH" then t.high
         else if s == "MEDIUM" then t.medium else if s == "LOW" then t.low else t.unknown) as real
  }

  // ---- Label values ----------------------------------------------------

  function ReportValue(field: string, k: Key, r: Report): string {
    if field == "scanner" then (if r.Kubescape? then "kubescape" else "trivy")
    else if field == REPORT_NAME then k.String()
    else if field == "image_namespace" then k.namespace
    else match r
      case Kubescape(image, imageDigest, _) => (
        if field == "image_registry" then (if image.Some? then image.value.domain else "")
        else if field == "image_repository" then (if image.Some? then image.value.path else "")
        else if field == "image_tag" then
          (if image.Some? && image.value.tag.Some? then image.value.tag.value else "")
        else if field == "image_digest" then (if imageDigest.Some? then imageDigest.value else "")
        else "")
      case Trivy(registry, repository, tag, digest, _, _) => (
        if field == "image_registry" then registry
        else if field == "image_repository" then repository
        else if field == "image_tag" then tag
        else if field == "image_digest" then digest
        else "")
  }

  function First(ss: seq<string>): string {
    if ss == [] then "" else ss[0]
  }

  function MatchValue(field: string, m: Match): string {
    if field == "vulnerability_id" then m.id
    else if field == "vulnerable_resource_name" then m.artifactName
    else if field == "installed_resource_version" then m.artifactVersion
    else if field == "fixed_resource_version" then First(m.fixVersions)
    else if field == "vulnerability_title" then (if m.description != "" then m.description else m.id)
    else if field == "vulnerability_link" then First(m.urls)
    else if field == "severity" then ToUpper(m.severity)
    else ""
  }

  function FindingValue(field: string, f: Finding): string {
    if field == "vulnerability_id" then f.id
    else if field == "vulnerable_resource_name" then f.resource
    else if field == "installed_resource_version" then f.installedVersion
    else if field == "fixed_resource_version" then f.fixedVersion
    else if field == "vulnerability_title" then f.title
    else if field == "vulnerability_link" then f.primaryLink
    else if field == "severity" then f.severity
    else if field == "vulnerability_published_date" then f.publishedDate
    else if field == "vulnerability_target" then f.target
    else if field == "vulnerability_class" then f.class_
    else ""
  }

  function ReportValues(k: Key, r: Report, ls: seq<VulnerabilityLabel>): Labels {
    map n | n in ScopeNames(ls, ReportScope) :: ReportValue(n, k, r)
  }

  function MatchValues(m: Match, ls: seq<VulnerabilityLabel>): Labels {
    map n | n in ScopeNames(ls, VulnerabilityScope) :: MatchValue(n, m)
  }

  function FindingValues(f: Finding, ls: seq<VulnerabilityLabel>): Labels {
    map n | n in ScopeNames(ls, VulnerabilityScope) :: FindingValue(n, f)
  }

  // ---- Scores ----------------------------------------------------------

  /** Go's `<` on strings. */
  predicate Less(a: string, b: string) {
    if b == "" then false
    else if a == "" then true
    else if a[0] != b[0] then a[0] < b[0]
    else Less(a[1..], b[1..])
  }

  const PREFERRED_CVSS_VERSION := "3.1"

  /** What the loop over the CVSS entries leaves in `score`, from a given `score` and `highestVersion`. */
  function ScoreFrom(cvss: seq<Cvss>, highest: string, score: real): real {
    if cvss == [] then score
    else if cvss[0].version == PREFERRED_CVSS_VERSION then cvss[0].baseScore
    else if Less(highest, cvss[0].version) then ScoreFrom(cvss[1..], cvss[0].version, cvss[0].baseScore)
    else ScoreFrom(cvss[1..], highest, score)
  }

  function MatchScore(m: Match): real {
    ScoreFrom(m.cvss, "", 0.0)
  }

  function FindingScore(f: Finding): real {
    if f.score.Some? then f.score.value else 0.0
  }

  lemma {:induction false} LessIsStrictOrder(a: string, b: string, c: string)
    ensures !Less(a, a)
    ensures Less(a, b) && Less(b, c) ==> Less(a, c)
    ensures Less(a, b) || a == b || Less(b, a)
    ensures !(Less(a, b) && Less(b, a))
  {
    if a != "" && b != "" {
      if c != "" {
        LessIsStrictOrder(a[1..], b[1..], c[1..]);
      } else {
        LessIsStrictOrder(a[1..], b[1..], c);
      }
      if a[0] == b[0] {
        assert a == [a[0]] + a[1..] && b == [b[0]] + b[1..];
      }
    } else if a != "" {
      LessIsStrictOrder(a[1..], b, c);
    }
  }

  predicate FirstPreferred(cvss: seq<Cvss>, i: int) {
    && 0 <= i < |cvss|
    && cvss[i].version == PREFERRED_CVSS_VERSION
    && forall j | 0 <= j < i :: cvss[j].version != PREFERRED_CVSS_VERSION
  }

  /** The first entry among those with the greatest version above `floor`. */
  predicate FirstGreatest(cvss: seq<Cvss>, floor: string, i: int) {
    && 0 <= i < |cvss|
    && Less(floor, cvss[i].version)
    && (forall j | 0 <= j < i :: Less(cvss[j].version, cvss[i].version))
    && (forall j | i <= j < |cvss| :: !Less(cvss[i].version, cvss[j].version))
  }

  /** Which CVSS entry the score comes from: the first preferred one, else the first greatest, else none. */
  lemma {:induction false} ScoreChoice(cvss: seq<Cvss>, floor: string, score: real)
    ensures forall i | FirstPreferred(cvss, i) :: ScoreFrom(cvss, floor, score) == cvss[i].baseScore
    ensures (forall j | 0 <= j < |cvss| :: cvss[j].version != PREFERRED_CVSS_VERSION) ==>
              forall i | FirstGreatest(cvss, floor, i) :: ScoreFrom(cvss, floor, score) == cvss[i].baseScore
    ensures (forall j | 0 <= j < |cvss| :: cvss[j].version != PREFERRED_CVSS_VERSION
                                          && !Less(floor, cvss[j].version)) ==>
              ScoreFrom(cvss, floor, score) == score
  {
    if cvss != [] && cvss[0].version != PREFERRED_CVSS_VERSION {
      var head, rest := cvss[0], cvss[1..];
      var floor', score' := if Less(floor, head.version) then head.version else floor,
                            if Less(floor, head.version) then head.baseScore else score;
      ScoreChoice(rest, floor', score');
      assert ScoreFrom(cvss, floor, score) == ScoreFrom(rest, floor', score');
      forall i | FirstPreferred(cvss, i)
        ensures ScoreFrom(cvss, floor, score) == cvss[i].baseScore
      {
        assert FirstPreferred(rest, i - 1);
      }
      if forall j | 0 <= j < |cvss| :: cvss[j].version != PREFERRED_CVSS_VERSION {
        forall i | FirstGreatest(cvss, floor, i)
          ensures ScoreFrom(cvss, floor, score) == cvss[i].baseScore
        {
          GreatestInRest(cvss, floor, i);
        }
      }
    }
  }

  lemma GreatestInRest(cvss: seq<Cvss>, floor: string, i: int)
    requires FirstGreatest(cvss, floor, i)
    ensures i == 0 ==> Less(floor, cvss[0].version)
                       && forall j | 0 <= j < |cvss| - 1 :: !Less(cvss[0].version, cvss[1..][j].version)
    ensures i > 0 ==> FirstGreatest(cvss[1..], if Less(floor, cvss[0].version) then cvss[0].version else floor, i - 1)
  {
    if i > 0 {
      assert Less(cvss[0].version, cvss[i].version);
    }
  }

  lemma {:induction false} GreatestExists(cvss: seq<Cvss>, floor: string)
    requires exists j :: 0 <= j < |cvss| && Less(floor, cvss[j].version)
    ensures exists i :: FirstGreatest(cvss, floor, i)
  {
    var head, rest := cvss[0].version, cvss[1..];
    var floor' := if Less(floor, head) then head else floor;
    if exists j :: 0 <= j < |rest| && Less(floor', rest[j].version) {
      GreatestExists(rest, floor');
      var i :| FirstGreatest(rest, floor', i);
      GreatestAfter(cvss, floor, i);
    } else {
      GreatestAtHead(cvss, floor);
    }
  }

  lemma GreatestAfter(cvss: seq<Cvss>, floor: string, i: int)
    requires cvss != []
    requires FirstGreatest(cvss[1..], if Less(floor, cvss[0].version) then cvss[0].version else floor, i)
    ensures FirstGreatest(cvss, floor, i + 1)
  {
    var v, head := cvss[1..][i].version, cvss[0].version;
    LessIsStrictOrder(floor, head, v);
    LessIsStrictOrder(head, floor, v);
    forall j | 0 <= j < i + 1
      ensures Less(cvss[j].version, v)
    {
      if j > 0 {
        assert cvss[j] == cvss[1..][j - 1];
      }
    }
    forall j | i + 1 <= j < |cvss|
      ensures !Less(v, cvss[j].version)
    {
      assert cvss[j] == cvss[1..][j - 1];
    }
  }

  lemma GreatestAtHead(cvss: seq<Cvss>, floor: string)
    requires exists j :: 0 <= j < |cvss| && Less(floor, cvss[j].version)
    requires var head := cvss[0].version;
             forall j | 0 <= j < |cvss| - 1 :: !Less(if Less(floor, head) then head else floor, cvss[1..][j].version)
    ensures FirstGreatest(cvss, floor, 0)
  {
    var j :| 0 <= j < |cvss| && Less(floor, cvss[j].version);
    assert j > 0 ==> cvss[j] == cvss[1..][j - 1];
    forall n | 0 <= n < |cvss|
      ensures !Less(cvss[0].version, cvss[n].version)
    {
      LessIsStrictOrder(cvss[0].version, cvss[0].version, "");
      assert n > 0 ==> cvss[n] == cvss[1..][n - 1];
    }
  }

  predicate NonePreferred(cvss: seq<Cvss>) {
    forall j | 0 <= j < |cvss| :: cvss[j].version != PREFERRED_CVSS_VERSION
  }

  /** Every match has its score from one of three places: the first preferred entry, else the first with the greatest
      version, else it is zero, and that only if no entry names a version. */
  lemma ScoreIsChosen(m: Match)
    ensures || (exists i :: FirstPreferred(m.cvss, i) && MatchScore(m) == m.cvss[i].baseScore)
            || (NonePreferred(m.cvss)
                && exists i :: FirstGreatest(m.cvss, "", i) && MatchScore(m) == m.cvss[i].baseScore)
            || ((forall j | 0 <= j < |m.cvss| :: m.cvss[j].version == "") && MatchScore(m) == 0.0)
  {
    ScoreChoice(m.cvss, "", 0.0);
    if !NonePreferred(m.cvss) {
      FirstOfThem(m.cvss);
    } else if exists j :: 0 <= j < |m.cvss| && Less("", m.cvss[j].version) {
      GreatestExists(m.cvss, "");
    }
  }

  lemma {:induction false} FirstOfThem(cvss: seq<Cvss>)
    requires !NonePreferred(cvss)
    ensures exists i :: FirstPreferred(cvss, i)
  {
    if cvss[0].version == PREFERRED_CVSS_VERSION {
      assert FirstPreferred(cvss, 0);
    } else {
      var j :| 0 <= j < |cvss| && cvss[j].version == PREFERRED_CVSS_VERSION;
      assert cvss[1..][j - 1] == cvss[j];
      FirstOfThem(cvss[1..]);
      var i :| FirstPreferred(cvss[1..], i);
      assert FirstPreferred(cvss, i + 1);
    }
  }

  // ---- The series of a report ------------------------------------------

  function SeveritySeries(base: Labels, severity: string): Series {
    Series(Summary, base["severity" := severity])
  }

  lemma SeveritiesAreDistinctSeries(base: Labels, a: string, b: string)
    ensures SeveritySeries(base, a) == SeveritySeries(base, b) <==> a == b
  {
    assert base["severity" := a]["severity"] == a;
    assert base["severity" := b]["severity"] == b;
  }

  /** One series for each counter, under the labels `base`. */
  function CountStore(base: Labels, counts: map<string, real>): (m: Store)
    ensures forall s | s in counts :: SeveritySeries(base, s) in m && m[SeveritySeries(base, s)] == counts[s]
    ensures forall x | x in m :: exists s :: s in counts && x == SeveritySeries(base, s)
  {
    assert forall a, b | SeveritySeries(base, a) == SeveritySeries(base, b) :: a == b by {
      forall a, b | SeveritySeries(base, a) == SeveritySeries(base, b)
        ensures a == b
      {
        SeveritiesAreDistinctSeries(base, a, b);
      }
    }
    map s | s in counts :: SeveritySeries(base, s) := counts[s]
  }

  function CountWrite(base: Labels, counts: map<string, real>, severity: string): Write
    requires severity in counts
  {
    Write(SeveritySeries(base, severity), counts[severity])
  }

  function CountWrites(base: Labels, counts: map<string, real>, order: seq<string>): (ws: seq<Write>)
    requires forall s | s in order :: s in counts
    ensures |ws| == |order|
    ensures forall i | 0 <= i < |order| :: ws[i] == CountWrite(base, counts, order[i])
  {
    seq(|order|, i requires 0 <= i < |order| => CountWrite(base, counts, order[i]))
  }

  /** One order in which a range loop may visit the severities. */
  ghost predicate IsOrder(order: seq<string>, severities: set<string>) {
    && (forall i, j | 0 <= i < j < |order| :: order[i] != order[j])
    && (set s | s in order) == severities
  }

  lemma CountWriteIn(base: Labels, counts: map<string, real>, order: seq<string>, s: string)
    requires IsOrder(order, counts.Keys)
    requires forall s | s in order :: s in counts
    requires s in counts
    ensures SeveritySeries(base, s) in Image(CountWrites(base, counts, order))
    ensures Image(CountWrites(base, counts, order))[SeveritySeries(base, s)] == counts[s]
  {
    var ws := CountWrites(base, counts, order);
    assert s in (set x | x in order);
    var i :| 0 <= i < |order| && order[i] == s;
    forall j | 0 <= j < |ws| && ws[j].series == ws[i].series
      ensures ws[j].value == ws[i].value
    {
      SeveritiesAreDistinctSeries(base, order[i], order[j]);
    }
    ImageOfDistinct(ws, i);
  }

  lemma CountWriteFrom(base: Labels, counts: map<string, real>, order: seq<string>, x: Series)
    requires IsOrder(order, counts.Keys)
    requires forall s | s in order :: s in counts
    requires x in SeriesOf(CountWrites(base, counts, order))
    ensures x in CountStore(base, counts)
  {
    var ws := CountWrites(base, counts, order);
    var w :| w in ws && w.series == x;
    var i :| 0 <= i < |ws| && ws[i] == w;
    assert order[i] in order;
  }

  lemma CountImageCovers(base: Labels, counts: map<string, real>, order: seq<string>, x: Series)
    requires IsOrder(order, counts.Keys)
    requires forall s | s in order :: s in counts
    requires x in CountStore(base, counts)
    ensures x in Image(CountWrites(base, counts, order))
    ensures Image(CountWrites(base, counts, order))[x] == CountStore(base, counts)[x]
  {
    var s :| s in counts && x == SeveritySeries(base, s);
    CountWriteIn(base, counts, order, s);
  }

  lemma OrderWithin(order: seq<string>, severities: set<string>)
    requires IsOrder(order, severities)
    ensures forall s | s in order :: s in severities
  {
    assert forall s | s in order :: s in (set x | x in order);
  }

  /** However the range loop orders the counters, the same summary series come out. */
  lemma CountOrderIrrelevant(base: Labels, counts: map<string, real>, order: seq<string>)
    requires IsOrder(order, counts.Keys)
    ensures forall s | s in order :: s in counts
    ensures Image(CountWrites(base, counts, order)) == CountStore(base, counts)
  {
    OrderWithin(order, counts.Keys);
    var image, m := Image(CountWrites(base, counts, order)), CountStore(base, counts);
    forall x | x in m ensures x in image && image[x] == m[x] { CountImageCovers(base, counts, order, x); }
    forall x | x in image ensures x in m { CountWriteFrom(base, counts, order, x); }
    SameStore(image, m);
  }

  function Base(k: Key, r: Report): Labels {
    ReportValues(k, r, SummaryLabels())
  }

  function SummaryWrites(k: Key, r: Report, order: seq<string>): (ws: seq<Write>)
    requires forall s | s in order :: s in Counts(r)
    ensures |ws| == |order|
  {
    CountWrites(Base(k, r), Counts(r), order)
  }

  function SummaryStore(k: Key, r: Report): Store {
    CountStore(Base(k, r), Counts(r))
  }

  function VulnerabilityCount(r: Report): nat {
    if r.Kubescape? then |r.matches| else |r.findings|
  }

  function DetailWrite(targets: seq<VulnerabilityLabel>, k: Key, r: Report, i: int): Write
    requires 0 <= i < VulnerabilityCount(r)
  {
    match r
    case Kubescape(_, _, matches) =>
      Write(Series(Details, MatchValues(matches[i], targets) + ReportValues(k, r, targets)), MatchScore(matches[i]))
    case Trivy(_, _, _, _, _, findings) =>
      Write(Series(Details, FindingValues(findings[i], targets) + ReportValues(k, r, targets)),
            FindingScore(findings[i]))
  }

  function DetailWrites(targets: seq<VulnerabilityLabel>, k: Key, r: Report): (ws: seq<Write>)
    ensures |ws| == if targets == [] then 0 else VulnerabilityCount(r)
  {
    if targets == [] then []
    else seq(VulnerabilityCount(r), i requires 0 <= i < VulnerabilityCount(r) => DetailWrite(targets, k, r, i))
  }

  /** Everything one reconcile publishes, for one visiting order of the severities. */
  function Plan(targets: seq<VulnerabilityLabel>, k: Key, r: Report, order: seq<string>): seq<Write>
    requires forall s | s in order :: s in Counts(r)
  {
    SummaryWrites(k, r, order) + DetailWrites(targets, k, r)
  }

  /** The series that one version of a report is to have: its counts, and one detail series for each
      label tuple with the score of the last vulnerability that projects to the tuple. */
  function Expected(targets: seq<VulnerabilityLabel>, k: Key, r: Report): Store {
    SummaryStore(k, r) + Image(DetailWrites(targets, k, r))
  }

  /** A write that some publication of this version contains. */
  ghost predicate IsWriteOf(targets: seq<VulnerabilityLabel>, k: Key, r: Report, w: Write) {
    || (exists s :: s in Counts(r) && w == CountWrite(Base(k, r), Counts(r), s))
    || w in DetailWrites(targets, k, r)
  }

  // ---- Facts about publishing ------------------------------------------

  lemma SummaryLabelFacts()
    ensures REPORT_NAME in ScopeNames(SummaryLabels(), ReportScope)
    ensures "scanner" in ScopeNames(SummaryLabels(), ReportScope)
    ensures "severity" !in ScopeNames(SummaryLabels(), ReportScope)
    ensures NameSet(SummaryLabels()) == ScopeNames(SummaryLabels(), ReportScope) + {"severity"}
    ensures FromTable(SummaryLabels())
  {
    InGroupMembers(METRIC_LABELS, GroupSummary);
    ReportNameInTable();
    ScannerInTable();
    SeverityInTable();
    SummaryScopes(SummaryLabels());
  }

  lemma SummaryScopes(ls: seq<VulnerabilityLabel>)
    requires FromTable(ls)
    requires forall l | l in ls :: GroupSummary in l.groups
    requires VulnerabilityLabel("severity", [GroupAll, GroupSummary], VulnerabilityScope) in ls
    ensures ScopeNames(ls, VulnerabilityScope) == {"severity"}
    ensures "severity" !in ScopeNames(ls, ReportScope)
    ensures NameSet(ls) == ScopeNames(ls, ReportScope) + {"severity"}
  {
    ScopesAreDisjoint(ls);
    forall l | l in ls && l.scope == VulnerabilityScope
      ensures l.name == "severity"
    {
      SummaryVulnerabilityLabel(l);
    }
  }

  lemma SummaryIsNamed(k: Key, r: Report, severity: string)
    ensures HasName(SeveritySeries(Base(k, r), severity), k.String())
  {
    SummaryLabelFacts();
  }

  lemma DetailIsNamed(targets: seq<VulnerabilityLabel>, k: Key, r: Report, i: int)
    requires ValidTargets(targets) && targets != []
    requires 0 <= i < VulnerabilityCount(r)
    ensures HasName(DetailWrite(targets, k, r, i).series, k.String())
  {
  }

  lemma WritesAreNamed(targets: seq<VulnerabilityLabel>, k: Key, r: Report, w: Write)
    requires ValidTargets(targets)
    requires IsWriteOf(targets, k, r, w)
    ensures HasName(w.series, k.String())
  {
    if w in DetailWrites(targets, k, r) {
      var i :| 0 <= i < |DetailWrites(targets, k, r)| && DetailWrites(targets, k, r)[i] == w;
      DetailIsNamed(targets, k, r, i);
    } else {
      var s :| s in Counts(r) && w == CountWrite(Base(k, r), Counts(r), s);
      SummaryIsNamed(k, r, s);
    }
  }

  lemma PlanWrites(targets: seq<VulnerabilityLabel>, k: Key, r: Report, order: seq<string>)
    requires forall s | s in order :: s in Counts(r)
    ensures forall w | w in Plan(targets, k, r, order) :: IsWriteOf(targets, k, r, w)
  {
    forall w | w in SummaryWrites(k, r, order)
      ensures IsWriteOf(targets, k, r, w)
    {
      var i :| 0 <= i < |order| && SummaryWrites(k, r, order)[i] == w;
      assert order[i] in order;
    }
  }

  lemma PublishedAreWrites(ws: seq<Write>)
    ensures forall s | s in PutAll(map[], ws) :: Write(s, PutAll(map[], ws)[s]) in ws
  {
    PutAllIsImage(map[], ws);
    forall s | s in SeriesOf(ws)
      ensures Write(s, LastValue(ws, s)) in ws
    {
      LastValueIsWritten(ws, s);
    }
  }

  /** Every visiting order of the severities publishes exactly the expected series. */
  lemma PlanGivesExpected(targets: seq<VulnerabilityLabel>, k: Key, r: Report, order: seq<string>)
    requires IsOrder(order, Counts(r).Keys)
    ensures forall s | s in order :: s in Counts(r)
    ensures PutAll(map[], Plan(targets, k, r, order)) == Expected(targets, k, r)
  {
    CountOrderIrrelevant(Base(k, r), Counts(r), order);
    PutAllIsImages(SummaryWrites(k, r, order), DetailWrites(targets, k, r));
  }

  lemma PutAllIsImages(a: seq<Write>, b: seq<Write>)
    ensures PutAll(map[], a + b) == Image(a) + Image(b)
  {
    PutAllAppend(map[], a, b);
    PutAllIsImage(map[], a);
    PutAllIsImage(PutAll(map[], a), b);
    assert map[] + Image(a) == Image(a);
  }

  lemma CountStoreEntry(base: Labels, counts: map<string, real>, x: Series)
    requires x in CountStore(base, counts)
    ensures exists s :: s in counts && Write(x, CountStore(base, counts)[x]) == CountWrite(base, counts, s)
  {
    var s :| s in counts && x == SeveritySeries(base, s);
    assert Write(x, CountStore(base, counts)[x]) == CountWrite(base, counts, s);
  }

  lemma MergedEntry(a: Store, ws: seq<Write>, x: Series)
    requires x in a + Image(ws)
    ensures (x in a && (a + Image(ws))[x] == a[x]) || Write(x, (a + Image(ws))[x]) in ws
  {
    if x in SeriesOf(ws) {
      LastValueIsWritten(ws, x);
    }
  }

  lemma ExpectedAreWrites(targets: seq<VulnerabilityLabel>, k: Key, r: Report, s: Series)
    requires s in Expected(targets, k, r)
    ensures IsWriteOf(targets, k, r, Write(s, Expected(targets, k, r)[s]))
  {
    MergedEntry(SummaryStore(k, r), DetailWrites(targets, k, r), s);
    if Write(s, Expected(targets, k, r)[s]) !in DetailWrites(targets, k, r) {
      CountStoreEntry(Base(k, r), Counts(r), s);
    }
  }

  lemma ExpectedIsNotEmpty(targets: seq<VulnerabilityLabel>, k: Key, r: Report)
    ensures Expected(targets, k, r) != map[]
  {
    assert "UNKNOWN" in Counts(r);
    assert SeveritySeries(Base(k, r), "UNKNOWN") in SummaryStore(k, r);
  }

  // ---- Label sets ------------------------------------------------------

  /** The summary map with its severity has exactly the names that the summary vector declares. */
  lemma SummaryLabelSet(k: Key, r: Report, severity: string)
    ensures SeveritySeries(Base(k, r), severity).labels.Keys == NameSet(SummaryLabels())
  {
    SummaryLabelFacts();
  }

  /** Merging the report's values into a vulnerability's gives exactly the declared names and overwrites none of them,
      so `With` accepts every label map. */
  lemma DetailLabelSet(targets: seq<VulnerabilityLabel>, k: Key, r: Report, i: int)
    requires FromTable(targets) && 0 <= i < VulnerabilityCount(r)
    ensures var m := DetailWrite(targets, k, r, i).series.labels;
            && m.Keys == NameSet(targets)
            && (forall n | n in ScopeNames(targets, ReportScope) :: m[n] == ReportValue(n, k, r))
            && (forall n | n in ScopeNames(targets, VulnerabilityScope) :: m[n] ==
                  if r.Kubescape? then MatchValue(n, r.matches[i]) else FindingValue(n, r.findings[i]))
  {
    ScopesAreDisjoint(targets);
  }

  // ---- Counting --------------------------------------------------------

  /** No match is lost: the six counters add up to the number of matches. */
  lemma {:induction false} CountsAddUp(matches: seq<Match>)
    ensures CountOf(matches, "CRITICAL") + CountOf(matches, "HIGH") + CountOf(matches, "MEDIUM")
          + CountOf(matches, "LOW") + CountOf(matches, "NEGLIGIBLE") + CountOf(matches, "UNKNOWN") == |matches|
  {
    if matches != [] {
      CountsAddUp(matches[..|matches| - 1]);
      NormaliseIsOneOfSix(matches[|matches| - 1].severity);
    }
  }

  lemma NormaliseIsOneOfSix(severity: string)
    ensures Normalise(severity) in KUBESCAPE_SEVERITIES
  {
  }

  function Without(b: seq<Match>, j: int): (rest: seq<Match>)
    requires 0 <= j < |b|
    ensures |rest| == |b| - 1 && multiset(rest) == multiset(b) - multiset{b[j]}
  {
    assert b == b[..j] + [b[j]] + b[j + 1..];
    b[..j] + b[j + 1..]
  }

  lemma CountWithout(b: seq<Match>, j: int, severity: string)
    requires 0 <= j < |b|
    ensures CountOf(b, severity) == CountOf(Without(b, j), severity) + CountOf([b[j]], severity)
  {
    assert b == (b[..j] + [b[j]]) + b[j + 1..];
    CountOfConcat(b[..j] + [b[j]], b[j + 1..], severity);
    CountOfConcat(b[..j], [b[j]], severity);
    CountOfConcat(b[..j], b[j + 1..], severity);
  }

  lemma SameMember(a: seq<Match>, b: seq<Match>) returns (j: int)
    requires multiset(a) == multiset(b) && a != []
    ensures 0 <= j < |b| && b[j] == a[0]
  {
    assert a[0] in multiset(b);
    j :| 0 <= j < |b| && b[j] == a[0];
  }

  /** The counters depend only on which matches there are. */
  lemma {:induction false} CountsIgnoreOrder(a: seq<Match>, b: seq<Match>, severity: string)
    requires multiset(a) == multiset(b)
    ensures CountOf(a, severity) == CountOf(b, severity)
    decreases |a|
  {
    if a == [] {
      assert |b| == |multiset(b)| == 0;
    } else {
      var j := SameMember(a, b);
      CountsIgnoreOrder(Without(a, 0), Without(b, j), severity);
      CountWithout(a, 0, severity);
      CountWithout(b, j, severity);
    }
  }

  lemma {:induction false} CountOfConcat(a: seq<Match>, b: seq<Match>, severity: string)
    ensures CountOf(a + b, severity) == CountOf(a, severity) + CountOf(b, severity)
    decreases |b|
  {
    if b == [] {
      assert a + b == a;
    } else {
      CountOfConcat(a, b[..|b| - 1], severity);
      assert (a + b)[..|a + b| - 1] == a + b[..|b| - 1];
    }
  }
}
