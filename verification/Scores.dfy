/** What the detail series show: the score of each vulnerability, told from its entries. */
module Scores {
  import opened Metrics
  import opened Gauges
  import opened Reports

  // ---- Which version is greater ----------------------------------------

  /** At the first place where they differ the one has the smaller character, or has ended. */
  predicate DiffersAt(a: string, b: string, n: int) {
    && 0 <= n <= |a| && n < |b| && a[..n] == b[..n]
    && (n == |a| || a[n] < b[n])
  }

  lemma HeadsAgree(a: string, b: string, n: int)
    requires DiffersAt(a, b, n)
    ensures n > 0 ==> a[0] == b[0]
  {
    if n > 0 {
      assert a[..n][0] == a[0] && b[..n][0] == b[0];
    }
  }

  /** Go's comparison of strings. */
  lemma {:induction false} LessByFirstDifference(a: string, b: string)
    ensures Less(a, b) <==> exists n :: DiffersAt(a, b, n)
    decreases |b|
  {
    if b != "" && a != "" && a[0] == b[0] {
      LessByFirstDifference(a[1..], b[1..]);
      if Less(a[1..], b[1..]) {
        var n :| DiffersAt(a[1..], b[1..], n);
        assert a[..n + 1] == [a[0]] + a[1..][..n] && b[..n + 1] == [b[0]] + b[1..][..n];
        assert DiffersAt(a, b, n + 1);
      }
      if n :| DiffersAt(a, b, n) {
        assert n > 0;
        assert a[1..][..n - 1] == a[..n][1..] && b[1..][..n - 1] == b[..n][1..];
        assert DiffersAt(a[1..], b[1..], n - 1);
      }
    } else if b != "" && a != "" {
      if n :| DiffersAt(a, b, n) {
        HeadsAgree(a, b, n);
      }
      if a[0] < b[0] {
        assert DiffersAt(a, b, 0);
      }
    } else if b != "" {
      assert DiffersAt(a, b, 0);
    }
  }

  /** The versions there are, in their order; 4.0 is greater than the preferred one, which wins all the same. */
  lemma KnownVersions()
    ensures Less("", "2.0") && Less("2.0", "3.0") && Less("3.0", "3.1") && Less("3.1", "4.0")
    ensures PREFERRED_CVSS_VERSION == "3.1"
  {
    assert "2.0"[1..] == ".0" && "3.0"[1..] == ".0" && "3.1"[1..] == ".1";
    assert ".0"[1..] == "0" && ".1"[1..] == "1";
  }

  // ---- The value of a series -------------------------------------------

  /** The first entry of version 3.1. */
  predicate First31(cvss: seq<Cvss>, n: int) {
    0 <= n < |cvss| && cvss[n].version == "3.1" && forall j | 0 <= j < n :: cvss[j].version != "3.1"
  }

  predicate No31(cvss: seq<Cvss>) {
    forall j | 0 <= j < |cvss| :: cvss[j].version != "3.1"
  }

  /** The first among the entries with the greatest version, and that is not empty. */
  predicate FirstOfGreatest(cvss: seq<Cvss>, n: int) {
    && 0 <= n < |cvss| && cvss[n].version != ""
    && (forall j | 0 <= j < n :: Less(cvss[j].version, cvss[n].version))
    && (forall j | n <= j < |cvss| :: !Less(cvss[n].version, cvss[j].version))
  }

  /** A Kubescape series has the score of the first 3.1 entry, else of the first entry with the greatest version, else
      zero. */
  lemma MatchShowsItsScore(targets: seq<VulnerabilityLabel>, k: Key, r: Report, i: int)
    requires r.Kubescape? && 0 <= i < |r.matches|
    ensures var cvss, value := r.matches[i].cvss, DetailWrite(targets, k, r, i).value;
            && (forall n | First31(cvss, n) :: value == cvss[n].baseScore)
            && (No31(cvss) ==> forall n | FirstOfGreatest(cvss, n) :: value == cvss[n].baseScore)
            && ((forall j | 0 <= j < |cvss| :: cvss[j].version == "") ==> value == 0.0)
  {
    var cvss := r.matches[i].cvss;
    ScoreChoice(cvss, "", 0.0);
    forall n | First31(cvss, n)
      ensures FirstPreferred(cvss, n)
    {
    }
    forall n | FirstOfGreatest(cvss, n)
      ensures FirstGreatest(cvss, "", n)
    {
    }
  }

  /** One of the three applies to every match. */
  lemma OneRuleApplies(cvss: seq<Cvss>)
    ensures || (exists n :: First31(cvss, n))
            || (No31(cvss) && exists n :: FirstOfGreatest(cvss, n))
            || (forall j | 0 <= j < |cvss| :: cvss[j].version == "")
  {
    if !NonePreferred(cvss) {
      FirstOfThem(cvss);
      var n :| FirstPreferred(cvss, n);
      assert First31(cvss, n);
    } else if exists j :: 0 <= j < |cvss| && Less("", cvss[j].version) {
      GreatestExists(cvss, "");
      var n :| FirstGreatest(cvss, "", n);
      assert FirstOfGreatest(cvss, n);
    }
  }

  /** A Trivy series has the finding's score, or zero if there is none. */
  lemma FindingShowsItsScore(targets: seq<VulnerabilityLabel>, k: Key, r: Report, i: int)
    requires r.Trivy? && 0 <= i < |r.findings|
    ensures r.findings[i].score.Some? ==> DetailWrite(targets, k, r, i).value == r.findings[i].score.value
    ensures r.findings[i].score.None? ==> DetailWrite(targets, k, r, i).value == 0.0
  {
  }

  // ---- The vector ------------------------------------------------------

  /** No later vulnerability has the same series. */
  predicate IsLast(targets: seq<VulnerabilityLabel>, k: Key, r: Report, i: int) {
    && 0 <= i < VulnerabilityCount(r)
    && forall j | i < j < VulnerabilityCount(r) ::
         DetailWrite(targets, k, r, j).series != DetailWrite(targets, k, r, i).series
  }

  lemma {:induction false} LastWriteStays(g: Store, ws: seq<Write>, i: int)
    requires 0 <= i < |ws| && forall j | i < j < |ws| :: ws[j].series != ws[i].series
    ensures ws[i].series in PutAll(g, ws) && PutAll(g, ws)[ws[i].series] == ws[i].value
    decreases |ws|
  {
    if i < |ws| - 1 {
      LastWriteStays(g, ws[..|ws| - 1], i);
    }
  }

  /** Publishing on any gauges shows each vulnerability's score, unless a later one of the report
      has the same series. */
  lemma VectorShowsScores(g: Store, targets: seq<VulnerabilityLabel>, k: Key, r: Report, i: int)
    requires targets != [] && IsLast(targets, k, r, i)
    ensures var g', w := PutAll(g, DetailWrites(targets, k, r)), DetailWrite(targets, k, r, i);
            w.series in g' && g'[w.series] == w.value
  {
    LastWriteStays(g, DetailWrites(targets, k, r), i);
  }

  /** The detail series expected of a report: one for each vulnerability and no others, and none
      without target labels. */
  lemma ExpectedDetails(targets: seq<VulnerabilityLabel>, k: Key, r: Report, s: Series)
    requires s.gauge == Details
    ensures s in Expected(targets, k, r) <==>
              targets != [] && exists i :: 0 <= i < VulnerabilityCount(r) && DetailWrite(targets, k, r, i).series == s
  {
    var ws := DetailWrites(targets, k, r);
    assert s !in SummaryStore(k, r);
    if s in SeriesOf(ws) {
      var w :| w in ws && w.series == s;
      var i :| 0 <= i < |ws| && ws[i] == w;
      assert DetailWrite(targets, k, r, i).series == s;
    }
    if targets != [] {
      forall i | 0 <= i < VulnerabilityCount(r) && DetailWrite(targets, k, r, i).series == s
        ensures s in SeriesOf(ws)
      {
        assert ws[i] in ws;
      }
    }
  }

  lemma DetailsAreDetails(targets: seq<VulnerabilityLabel>, k: Key, r: Report, s: Series)
    requires s in SeriesOf(DetailWrites(targets, k, r))
    ensures s.gauge == Details
  {
    var ws := DetailWrites(targets, k, r);
    var w :| w in ws && w.series == s;
    var i :| 0 <= i < |ws| && ws[i] == w;
  }

  lemma SummariesOver(base: Labels, counts: map<string, real>, details: Store, s: Series)
    requires s !in details
    ensures s in CountStore(base, counts) + details <==> exists n :: n in counts && SeveritySeries(base, n) == s
    ensures forall n | n in counts && SeveritySeries(base, n) == s ::
              (CountStore(base, counts) + details)[s] == counts[n]
  {
  }

  /** The summary series: one for each severity and no others, with its count. */
  lemma ExpectedSummaries(targets: seq<VulnerabilityLabel>, k: Key, r: Report, s: Series)
    requires s.gauge == Summary
    ensures s in Expected(targets, k, r) <==> exists n :: n in Counts(r) && SeveritySeries(Base(k, r), n) == s
    ensures forall n | n in Counts(r) && SeveritySeries(Base(k, r), n) == s ::
              Expected(targets, k, r)[s] == Counts(r)[n]
  {
    if s in SeriesOf(DetailWrites(targets, k, r)) {
      DetailsAreDetails(targets, k, r, s);
    }
    SummariesOver(Base(k, r), Counts(r), Image(DetailWrites(targets, k, r)), s);
  }

  lemma ExpectedShowsScores(targets: seq<VulnerabilityLabel>, k: Key, r: Report, i: int)
    requires targets != [] && IsLast(targets, k, r, i)
    ensures var w := DetailWrite(targets, k, r, i);
            w.series in Expected(targets, k, r) && Expected(targets, k, r)[w.series] == w.value
  {
    DetailsOver(SummaryStore(k, r), DetailWrites(targets, k, r), i);
  }

  lemma DetailsOver(g: Store, ws: seq<Write>, i: int)
    requires 0 <= i < |ws| && forall j | i < j < |ws| :: ws[j].series != ws[i].series
    ensures ws[i].series in g + Image(ws) && (g + Image(ws))[ws[i].series] == ws[i].value
  {
    LastWriteStays(g, ws, i);
    PutAllIsImage(g, ws);
  }
}
