/** Nothing is counted twice and nothing is lost: the fleet's summary series add up to the matches of all manifests. */
module FleetConservation {
  import opened Metrics
  import opened Gauges
  import opened Reports
  import opened Fleet
  import opened FleetControl
  import opened FleetGauges
  import opened FleetSafety
  import opened FleetTheorems

  // ---- Sums over sets of series ----------------------------------------

  ghost function Sum(g: Store, ss: set<Series>): real
    requires ss <= g.Keys
    decreases |ss|
  {
    if ss == {} then 0.0 else
    var s :| s in ss;
    g[s] + Sum(g, ss - {s})
  }

  lemma {:induction false} SumWithout(g: Store, ss: set<Series>, x: Series)
    requires ss <= g.Keys && x in ss
    ensures Sum(g, ss) == g[x] + Sum(g, ss - {x})
    decreases |ss|
  {
    var s :| s in ss && Sum(g, ss) == g[s] + Sum(g, ss - {s});
    if s != x {
      SumWithout(g, ss - {s}, x);
      SumWithout(g, ss - {x}, s);
      assert ss - {s} - {x} == ss - {x} - {s};
    }
  }

  lemma {:induction false} SumOfDisjoint(g: Store, a: set<Series>, b: set<Series>)
    requires a <= g.Keys && b <= g.Keys && a !! b
    ensures Sum(g, a + b) == Sum(g, a) + Sum(g, b)
    decreases |a|
  {
    if a == {} {
      assert a + b == b;
    } else {
      var x :| x in a;
      SumWithout(g, a, x);
      SumWithout(g, a + b, x);
      assert (a + b) - {x} == (a - {x}) + b;
      SumOfDisjoint(g, a - {x}, b);
    }
  }

  // ---- The counters of one severity ------------------------------------

  /** A Kubescape counter of this severity, as a query by `scanner` and `severity` selects it. */
  predicate IsCounter(s: Series, severity: string) {
    && s.gauge == Summary
    && "scanner" in s.labels && s.labels["scanner"] == "kubescape"
    && "severity" in s.labels && s.labels["severity"] == severity
  }

  function Counters(g: Store, severity: string): set<Series> {
    set s | s in g && IsCounter(s, severity)
  }

  /** The counters of the reports in `ks`. */
  function CountersOf(g: Store, severity: string, ks: seq<Key>): set<Series> {
    set s | s in g && IsCounter(s, severity) && NamedIn(s, ks)
  }

  predicate NamedIn(s: Series, ks: seq<Key>) {
    exists k :: k in ks && HasName(s, k.String())
  }

  /** How many matches of a report go to this counter. */
  function MatchesOf(c: Content, severity: string): nat {
    if c.Present? && c.obj.report.Kubescape? then CountOf(c.obj.report.matches, severity) else 0
  }

  lemma ScannerOfBase(k: Key, r: Report)
    ensures "scanner" in Base(k, r) && Base(k, r)["scanner"] == if r.Kubescape? then "kubescape" else "trivy"
  {
    SummaryLabelFacts();
  }

  lemma SeveritySeriesCounts(k: Key, r: Report, s: string, severity: string)
    ensures IsCounter(SeveritySeries(Base(k, r), s), severity) <==> r.Kubescape? && s == severity
  {
    ScannerOfBase(k, r);
    CounterOfBase(Base(k, r), s, severity);
    assert "kubescape"[0] != "trivy"[0];
  }

  lemma CounterOfBase(base: Labels, s: string, severity: string)
    requires "scanner" in base
    ensures IsCounter(SeveritySeries(base, s), severity) <==> base["scanner"] == "kubescape" && s == severity
  {
    assert "scanner" != "severity";
  }

  lemma DetailsAreNoCounters(targets: seq<VulnerabilityLabel>, k: Key, r: Report, s: Series)
    requires s in SeriesOf(DetailWrites(targets, k, r))
    ensures s.gauge == Details
  {
    var w :| w in DetailWrites(targets, k, r) && w.series == s;
    var i :| 0 <= i < |DetailWrites(targets, k, r)| && DetailWrites(targets, k, r)[i] == w;
  }

  lemma CounterOfReport(targets: seq<VulnerabilityLabel>, k: Key, r: Report, severity: string, s: Series)
    requires r.Kubescape? && severity in KUBESCAPE_SEVERITIES
    ensures s in Expected(targets, k, r) && IsCounter(s, severity) <==> s == SeveritySeries(Base(k, r), severity)
    ensures SeveritySeries(Base(k, r), severity) in Expected(targets, k, r)
    ensures Expected(targets, k, r)[SeveritySeries(Base(k, r), severity)] == CountOf(r.matches, severity) as real
  {
    var x := SeveritySeries(Base(k, r), severity);
    SeveritySeriesCounts(k, r, severity, severity);
    assert x in SummaryStore(k, r) && SummaryStore(k, r)[x] == Counts(r)[severity];
    if x in SeriesOf(DetailWrites(targets, k, r)) {
      DetailsAreNoCounters(targets, k, r, x);
    }
    if s in Expected(targets, k, r) && IsCounter(s, severity) {
      if s in SeriesOf(DetailWrites(targets, k, r)) {
        DetailsAreNoCounters(targets, k, r, s);
      }
      var sev :| sev in Counts(r) && s == SeveritySeries(Base(k, r), sev);
      SeveritySeriesCounts(k, r, sev, severity);
    }
  }

  lemma NoCounterOfTrivy(targets: seq<VulnerabilityLabel>, k: Key, r: Report, severity: string, s: Series)
    requires r.Trivy? && s in Expected(targets, k, r)
    ensures !IsCounter(s, severity)
  {
    if s in SeriesOf(DetailWrites(targets, k, r)) {
      DetailsAreNoCounters(targets, k, r, s);
    } else {
      var sev :| sev in Counts(r) && s == SeveritySeries(Base(k, r), sev);
      SeveritySeriesCounts(k, r, sev, severity);
    }
  }

  lemma CountersAreViewed(g: Store, k: Key, severity: string)
    ensures CountersOf(g, severity, [k]) == Counters(View(g, k.String()), severity)
  {
    assert k in [k];
  }

  lemma SumOfOne(g: Store, x: Series)
    requires x in g
    ensures Sum(g, {x}) == g[x]
  {
    SumWithout(g, {x}, x);
    assert {x} - {x} == {};
  }

  lemma KubescapeCounters(targets: seq<VulnerabilityLabel>, k: Key, r: Report, severity: string)
    requires r.Kubescape? && severity in KUBESCAPE_SEVERITIES
    ensures Counters(Expected(targets, k, r), severity) == {SeveritySeries(Base(k, r), severity)}
  {
    forall s
      ensures s in Expected(targets, k, r) && IsCounter(s, severity) <==> s == SeveritySeries(Base(k, r), severity)
    {
      CounterOfReport(targets, k, r, severity, s);
    }
  }

  lemma TrivyCounters(targets: seq<VulnerabilityLabel>, k: Key, r: Report, severity: string)
    requires r.Trivy?
    ensures Counters(Expected(targets, k, r), severity) == {}
  {
    forall s | s in Expected(targets, k, r) ensures !IsCounter(s, severity) {
      NoCounterOfTrivy(targets, k, r, severity, s);
    }
  }

  /** What one report contributes to the counters of the pod that shows it. */
  lemma Contribution(cfg: Config, k: Key, r: Report, g: Store, severity: string)
    requires severity in KUBESCAPE_SEVERITIES
    requires View(g, k.String()) == Expected(cfg.targets, k, r)
    ensures Sum(g, CountersOf(g, severity, [k]))
         == if r.Kubescape? then CountOf(r.matches, severity) as real else 0.0
  {
    CountersAreViewed(g, k, severity);
    if r.Kubescape? {
      var x := SeveritySeries(Base(k, r), severity);
      KubescapeCounters(cfg.targets, k, r, severity);
      CounterOfReport(cfg.targets, k, r, severity, x);
      assert g[x] == View(g, k.String())[x];
      SumOfOne(g, x);
    } else {
      TrivyCounters(cfg.targets, k, r, severity);
    }
  }

  // ---- Sums over pods and reports --------------------------------------

  ghost function FleetSum(cfg: Config, s: State, severity: string, ps: seq<Pod>, ks: seq<Key>): real
    requires forall p | p in ps :: p in s.gauges
  {
    if ps == [] then 0.0
    else FleetSum(cfg, s, severity, ps[..|ps| - 1], ks)
         + Sum(s.gauges[ps[|ps| - 1]], CountersOf(s.gauges[ps[|ps| - 1]], severity, ks))
  }

  function MatchSum(cfg: Config, s: State, severity: string, ks: seq<Key>): nat
    requires forall k | k in ks :: k in s.keys
  {
    if ks == [] then 0
    else MatchSum(cfg, s, severity, ks[..|ks| - 1]) + MatchesOf(Last(s.keys[ks[|ks| - 1]].history), severity)
  }

  /** What a pod is to show, told for the state as a whole. */
  ghost predicate AllConverged(cfg: Config, s: State, members: set<Pod>) {
    WellFormed(cfg, s) && forall k | k in cfg.keys :: Converged(cfg, s, k, members)
  }

  /** Over all pods a report contributes its matches, once: at its owner, if that is among the pods. */
  lemma {:induction false} ReportSum(cfg: Config, s: State, severity: string, ps: seq<Pod>, k: Key, members: set<Pod>)
    requires WellFormed(cfg, s) && k in cfg.keys && Converged(cfg, s, k, members)
    requires severity in KUBESCAPE_SEVERITIES
    requires (forall p | p in ps :: p in cfg.pods) && forall i, j | 0 <= i < j < |ps| :: ps[i] != ps[j]
    ensures FleetSum(cfg, s, severity, ps, [k])
         == if cfg.Owner(members, k) in ps then MatchesOf(Last(HistoryOf(cfg, s, k)), severity) as real else 0.0
  {
    if ps != [] {
      var init, p := ps[..|ps| - 1], ps[|ps| - 1];
      assert ps == init + [p] && p in ps;
      ReportSum(cfg, s, severity, init, k, members);
      PodSum(cfg, s, severity, p, k, members);
    }
  }

  lemma PodSum(cfg: Config, s: State, severity: string, p: Pod, k: Key, members: set<Pod>)
    requires WellFormed(cfg, s) && k in cfg.keys && Converged(cfg, s, k, members) && p in cfg.pods
    requires severity in KUBESCAPE_SEVERITIES
    ensures Sum(s.gauges[p], CountersOf(s.gauges[p], severity, [k]))
         == if p == cfg.Owner(members, k) then MatchesOf(Last(HistoryOf(cfg, s, k)), severity) as real else 0.0
  {
    var c, g := Last(HistoryOf(cfg, s, k)), s.gauges[p];
    assert Exports(cfg, s, k, p) == DueFrom(cfg, k, p, HistoryOf(cfg, s, k), members);
    if p == cfg.Owner(members, k) && c.Present? {
      Contribution(cfg, k, c.obj.report, g, severity);
    } else {
      CountersAreViewed(g, k, severity);
      assert CountersOf(g, severity, [k]) == {};
    }
  }

  lemma CountersSplit(g: Store, severity: string, init: seq<Key>, k: Key)
    requires forall x | x in init :: x.String() != k.String()
    ensures Sum(g, CountersOf(g, severity, init + [k]))
         == Sum(g, CountersOf(g, severity, init)) + Sum(g, CountersOf(g, severity, [k]))
  {
    var a, b := CountersOf(g, severity, init), CountersOf(g, severity, [k]);
    assert CountersOf(g, severity, init + [k]) == a + b;
    assert a !! b;
    SumOfDisjoint(g, a, b);
  }

  lemma {:induction false} FleetSplit(cfg: Config, s: State, severity: string, ps: seq<Pod>, init: seq<Key>, k: Key)
    requires forall p | p in ps :: p in s.gauges
    requires forall x | x in init :: x.String() != k.String()
    ensures FleetSum(cfg, s, severity, ps, init + [k])
         == FleetSum(cfg, s, severity, ps, init) + FleetSum(cfg, s, severity, ps, [k])
  {
    if ps != [] {
      assert ps[|ps| - 1] in ps;
      FleetSplit(cfg, s, severity, ps[..|ps| - 1], init, k);
      CountersSplit(s.gauges[ps[|ps| - 1]], severity, init, k);
    }
  }

  lemma {:induction false} NoReportsNoSum(cfg: Config, s: State, severity: string, ps: seq<Pod>)
    requires forall p | p in ps :: p in s.gauges
    ensures FleetSum(cfg, s, severity, ps, []) == 0.0
  {
    if ps != [] {
      assert ps[|ps| - 1] in ps;
      NoReportsNoSum(cfg, s, severity, ps[..|ps| - 1]);
      assert CountersOf(s.gauges[ps[|ps| - 1]], severity, []) == {};
    }
  }

  lemma {:induction false} SumOverReports(cfg: Config, s: State, severity: string, ks: seq<Key>, members: set<Pod>)
    requires cfg.Valid() && AllConverged(cfg, s, members)
    requires (forall k | k in ks :: k in cfg.keys) && forall i, j | 0 <= i < j < |ks| :: ks[i] != ks[j]
    requires severity in KUBESCAPE_SEVERITIES
    requires forall k | k in cfg.keys :: cfg.Owner(members, k) in cfg.pods
    ensures FleetSum(cfg, s, severity, cfg.pods, ks) == MatchSum(cfg, s, severity, ks) as real
  {
    if ks == [] {
      NoReportsNoSum(cfg, s, severity, cfg.pods);
    } else {
      var init, k := ks[..|ks| - 1], ks[|ks| - 1];
      assert ks == init + [k] && k in ks;
      SumOverReports(cfg, s, severity, init, members);
      FleetSplit(cfg, s, severity, cfg.pods, init, k);
      ReportSum(cfg, s, severity, cfg.pods, k, members);
    }
  }

  /** What a query over the whole fleet adds up, whatever the reports' names. */
  ghost function QueriedSum(cfg: Config, s: State, severity: string, ps: seq<Pod>): real
    requires forall p | p in ps :: p in s.gauges
  {
    if ps == [] then 0.0
    else QueriedSum(cfg, s, severity, ps[..|ps| - 1])
         + Sum(s.gauges[ps[|ps| - 1]], Counters(s.gauges[ps[|ps| - 1]], severity))
  }

  lemma {:induction false} NothingElseIsQueried(cfg: Config, s: State, severity: string, ps: seq<Pod>)
    requires forall p | p in ps :: p in s.gauges && NoStrays(cfg, s.gauges[p])
    ensures QueriedSum(cfg, s, severity, ps) == FleetSum(cfg, s, severity, ps, cfg.keys)
  {
    if ps != [] {
      var p := ps[|ps| - 1];
      assert p in ps;
      NothingElseIsQueried(cfg, s, severity, ps[..|ps| - 1]);
      assert Counters(s.gauges[p], severity) == CountersOf(s.gauges[p], severity, cfg.keys);
    }
  }

  /** In a converged state the fleet's counters of a severity add up to the matches of that severity in all manifests
      there are: no report is counted twice or missed, and no stale series is left over. */
  lemma SeverityIsConserved(cfg: Config, s: State, severity: string, members: set<Pod>)
    requires cfg.Valid() && Reachable(cfg, s) && AllConverged(cfg, s, members)
    requires severity in KUBESCAPE_SEVERITIES
    requires forall k | k in cfg.keys :: cfg.Owner(members, k) in cfg.pods
    ensures QueriedSum(cfg, s, severity, cfg.pods) == MatchSum(cfg, s, severity, cfg.keys) as real
  {
    ReachableInv(cfg, s);
    NothingElseIsQueried(cfg, s, severity, cfg.pods);
    SumOverReports(cfg, s, severity, cfg.keys, members);
  }

  function AllMatches(cfg: Config, s: State, ks: seq<Key>): nat
    requires forall k | k in ks :: k in s.keys
  {
    if ks == [] then 0
    else
      var c := Last(s.keys[ks[|ks| - 1]].history);
      AllMatches(cfg, s, ks[..|ks| - 1]) + if c.Present? && c.obj.report.Kubescape? then |c.obj.report.matches| else 0
  }

  lemma {:induction false} SeveritiesAddUp(cfg: Config, s: State, ks: seq<Key>)
    requires forall k | k in ks :: k in s.keys
    ensures MatchSum(cfg, s, "CRITICAL", ks) + MatchSum(cfg, s, "HIGH", ks) + MatchSum(cfg, s, "MEDIUM", ks)
          + MatchSum(cfg, s, "LOW", ks) + MatchSum(cfg, s, "NEGLIGIBLE", ks) + MatchSum(cfg, s, "UNKNOWN", ks)
         == AllMatches(cfg, s, ks)
  {
    if ks != [] {
      SeveritiesAddUp(cfg, s, ks[..|ks| - 1]);
      assert ks[|ks| - 1] in ks;
      var c := Last(s.keys[ks[|ks| - 1]].history);
      if c.Present? && c.obj.report.Kubescape? {
        CountsAddUp(c.obj.report.matches);
      }
    }
  }

  /** And all six together make the total number of matches. */
  lemma MatchesAreConserved(cfg: Config, s: State, members: set<Pod>)
    requires cfg.Valid() && Reachable(cfg, s) && AllConverged(cfg, s, members)
    requires forall k | k in cfg.keys :: cfg.Owner(members, k) in cfg.pods
    ensures QueriedSum(cfg, s, "CRITICAL", cfg.pods) + QueriedSum(cfg, s, "HIGH", cfg.pods)
          + QueriedSum(cfg, s, "MEDIUM", cfg.pods) + QueriedSum(cfg, s, "LOW", cfg.pods)
          + QueriedSum(cfg, s, "NEGLIGIBLE", cfg.pods) + QueriedSum(cfg, s, "UNKNOWN", cfg.pods)
         == AllMatches(cfg, s, cfg.keys) as real
  {
    SeverityIsConserved(cfg, s, "CRITICAL", members);
    SeverityIsConserved(cfg, s, "HIGH", members);
    SeverityIsConserved(cfg, s, "MEDIUM", members);
    SeverityIsConserved(cfg, s, "LOW", members);
    SeverityIsConserved(cfg, s, "NEGLIGIBLE", members);
    SeverityIsConserved(cfg, s, "UNKNOWN", members);
    SeveritiesAddUp(cfg, s, cfg.keys);
  }
}
