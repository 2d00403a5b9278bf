/** The table of known labels and the lookups over it. */
module Metrics {

  datatype Scope = ReportScope | VulnerabilityScope

  datatype Group = GroupAll | GroupSummary

  datatype VulnerabilityLabel = VulnerabilityLabel(name: string, groups: seq<Group>, scope: Scope)

  const METRIC_LABELS: seq<VulnerabilityLabel> := [
    VulnerabilityLabel("scanner", [GroupAll, GroupSummary], ReportScope),
    VulnerabilityLabel("report_name", [GroupAll, GroupSummary], ReportScope),
    VulnerabilityLabel("image_namespace", [GroupAll, GroupSummary], ReportScope),
    VulnerabilityLabel("image_registry", [GroupAll, GroupSummary], ReportScope),
    VulnerabilityLabel("image_repository", [GroupAll, GroupSummary], ReportScope),
    VulnerabilityLabel("image_tag", [GroupAll, GroupSummary], ReportScope),
    VulnerabilityLabel("image_digest", [GroupAll, GroupSummary], ReportScope),
    VulnerabilityLabel("severity", [GroupAll, GroupSummary], VulnerabilityScope),
    VulnerabilityLabel("vulnerability_id", [GroupAll], VulnerabilityScope),
    VulnerabilityLabel("vulnerable_resource_name", [GroupAll], VulnerabilityScope),
    VulnerabilityLabel("installed_resource_version", [GroupAll], VulnerabilityScope),
    VulnerabilityLabel("fixed_resource_version", [GroupAll], VulnerabilityScope),
    VulnerabilityLabel("vulnerability_title", [GroupAll], VulnerabilityScope),
    VulnerabilityLabel("vulnerability_link", [GroupAll], VulnerabilityScope),
    VulnerabilityLabel("vulnerability_published_date", [GroupAll], VulnerabilityScope),
    VulnerabilityLabel("vulnerability_target", [GroupAll], VulnerabilityScope),
    VulnerabilityLabel("vulnerability_class", [GroupAll], VulnerabilityScope)
  ]

  function Names(ls: seq<VulnerabilityLabel>): (names: seq<string>)
    ensures |names| == |ls|
  {
    seq(|ls|, i requires 0 <= i < |ls| => ls[i].name)
  }

  function NameSet(ls: seq<VulnerabilityLabel>): set<string> {
    set l | l in ls :: l.name
  }

  predicate DistinctNames(ls: seq<VulnerabilityLabel>) {
    forall i, j | 0 <= i < j < |ls| :: ls[i].name != ls[j].name
  }

  function ScopeNames(ls: seq<VulnerabilityLabel>, scope: Scope): set<string> {
    set l | l in ls && l.scope == scope :: l.name
  }

  predicate FromTable(ls: seq<VulnerabilityLabel>) {
    forall l | l in ls :: l in METRIC_LABELS
  }

  /** What a finished parse of the target labels guarantees to the publishing code. */
  predicate ValidTargets(targets: seq<VulnerabilityLabel>) {
    && FromTable(targets)
    && DistinctNames(targets)
    && (targets != [] ==> "report_name" in ScopeNames(targets, ReportScope))
  }

  /** Where a name stands in the table, told from its length and one of its letters. */
  function Position(name: string): int {
    if |name| == 7 then 0
    else if |name| == 11 then 1
    else if |name| == 15 then 2
    else if |name| == 14 then 3
    else if |name| == 16 && name[0] == 'i' then 4
    else if |name| == 9 then 5
    else if |name| == 12 then 6
    else if |name| == 8 then 7
    else if |name| == 16 then 8
    else if |name| == 24 then 9
    else if |name| == 26 then 10
    else if |name| == 22 then 11
    else if |name| == 19 && name[14] == 't' then 12
    else if |name| == 18 then 13
    else if |name| == 28 then 14
    else if |name| == 20 then 15
    else if |name| == 19 then 16
    else -1
  }

  lemma Positions()
    ensures Position("scanner") == 0
    ensures Position("report_name") == 1
    ensures Position("image_namespace") == 2
    ensures Position("image_registry") == 3
    ensures Position("image_repository") == 4
    ensures Position("image_tag") == 5
    ensures Position("image_digest") == 6
    ensures Position("severity") == 7
    ensures Position("vulnerability_id") == 8
    ensures Position("vulnerable_resource_name") == 9
    ensures Position("installed_resource_version") == 10
    ensures Position("fixed_resource_version") == 11
    ensures Position("vulnerability_title") == 12
    ensures Position("vulnerability_link") == 13
    ensures Position("vulnerability_published_date") == 14
    ensures Position("vulnerability_target") == 15
    ensures Position("vulnerability_class") == 16
  {
  }

  lemma PositionInTable(i: int)
    requires 0 <= i < |METRIC_LABELS|
    ensures Position(METRIC_LABELS[i].name) == i
  {
    Positions();
  }

  lemma TableIsDistinct()
    ensures DistinctNames(METRIC_LABELS)
  {
    forall i, j | 0 <= i < j < |METRIC_LABELS|
      ensures METRIC_LABELS[i].name != METRIC_LABELS[j].name
    {
      PositionInTable(i);
      PositionInTable(j);
    }
  }

  /** Within one table-drawn list a name never has two scopes. */
  lemma ScopesAreDisjoint(ls: seq<VulnerabilityLabel>)
    requires FromTable(ls)
    ensures ScopeNames(ls, ReportScope) !! ScopeNames(ls, VulnerabilityScope)
    ensures ScopeNames(ls, ReportScope) + ScopeNames(ls, VulnerabilityScope) == NameSet(ls)
  {
    TableIsDistinct();
    forall a, b | a in ls && b in ls && a.scope == ReportScope && b.scope == VulnerabilityScope
      ensures a.name != b.name
    {
      assert a in METRIC_LABELS && b in METRIC_LABELS;
    }
  }

  method LabelWithName(name: string) returns (l: VulnerabilityLabel, ok: bool)
    ensures ok <==> name in NameSet(METRIC_LABELS)
    ensures ok ==> l in METRIC_LABELS && l.name == name
  {
    for i := 0 to |METRIC_LABELS|
      invariant forall j | 0 <= j < i :: METRIC_LABELS[j].name != name
    {
      if METRIC_LABELS[i].name == name {
        return METRIC_LABELS[i], true;
      }
    }
    return VulnerabilityLabel("", [], ReportScope), false;
  }

  function InGroup(ls: seq<VulnerabilityLabel>, group: Group): seq<VulnerabilityLabel> {
    if ls == [] then []
    else InGroup(ls[..|ls| - 1], group) + (if group in ls[|ls| - 1].groups then [ls[|ls| - 1]] else [])
  }

  method LabelsForGroup(group: Group) returns (l: seq<VulnerabilityLabel>)
    ensures l == InGroup(METRIC_LABELS, group)
  {
    l := [];
    for i := 0 to |METRIC_LABELS|
      invariant l == InGroup(METRIC_LABELS[..i], group)
    {
      assert METRIC_LABELS[..i + 1][..i] == METRIC_LABELS[..i];
      if group in METRIC_LABELS[i].groups {
        l := l + [METRIC_LABELS[i]];
      }
    }
    assert METRIC_LABELS[..|METRIC_LABELS|] == METRIC_LABELS;
  }

  method LabelNamesForList(list: seq<VulnerabilityLabel>) returns (l: seq<string>)
    ensures l == Names(list)
    ensures |l| == |list| && forall i | 0 <= i < |l| :: l[i] == list[i].name
  {
    l := [];
    for i := 0 to |list|
      invariant l == Names(list[..i])
    {
      l := l + [list[i].name];
    }
    assert list[..|list|] == list;
  }

  method LabelNamesForGroup(group: Group) returns (l: seq<string>)
    ensures l == Names(InGroup(METRIC_LABELS, group))
    ensures var ls := InGroup(METRIC_LABELS, group); |l| == |ls| && forall i | 0 <= i < |l| :: l[i] == ls[i].name
  {
    l := [];
    for i := 0 to |METRIC_LABELS|
      invariant l == Names(InGroup(METRIC_LABELS[..i], group))
    {
      assert METRIC_LABELS[..i + 1][..i] == METRIC_LABELS[..i];
      if group in METRIC_LABELS[i].groups {
        l := l + [METRIC_LABELS[i].name];
      }
    }
    assert METRIC_LABELS[..|METRIC_LABELS|] == METRIC_LABELS;
  }

  lemma {:induction false} InGroupMembers(ls: seq<VulnerabilityLabel>, group: Group)
    ensures forall l :: l in InGroup(ls, group) <==> l in ls && group in l.groups
    ensures DistinctNames(ls) ==> DistinctNames(InGroup(ls, group))
  {
    if ls != [] {
      InGroupMembers(ls[..|ls| - 1], group);
      assert ls == ls[..|ls| - 1] + [ls[|ls| - 1]];
      if DistinctNames(ls) {
        var rest := InGroup(ls[..|ls| - 1], group);
        forall i | 0 <= i < |rest|
          ensures rest[i].name != ls[|ls| - 1].name
        {
          assert rest[i] in ls[..|ls| - 1];
        }
      }
    }
  }

  /** The places of a group's labels in a list: increasing, and all of them. */
  ghost predicate PlacesOf(ls: seq<VulnerabilityLabel>, group: Group, places: seq<int>) {
    && (forall i | 0 <= i < |places| :: 0 <= places[i] < |ls| && group in ls[places[i]].groups)
    && (forall i, j | 0 <= i < j < |places| :: places[i] < places[j])
    && (forall n | 0 <= n < |ls| && group in ls[n].groups :: n in places)
  }

  lemma PlacesGrow(init: seq<VulnerabilityLabel>, l: VulnerabilityLabel, group: Group, places: seq<int>)
    requires PlacesOf(init, group, places)
    ensures PlacesOf(init + [l], group, places + if group in l.groups then [|init|] else [])
  {
    var ls, more := init + [l], places + if group in l.groups then [|init|] else [];
    forall n | 0 <= n < |ls| && group in ls[n].groups
      ensures n in more
    {
      if n < |init| {
        assert init[n] == ls[n] && n in places;
      } else {
        assert more[|places|] == n;
      }
    }
  }

  /** A group's labels come in the order of the list. */
  lemma {:induction false} InGroupKeepsOrder(ls: seq<VulnerabilityLabel>, group: Group) returns (places: seq<int>)
    ensures PlacesOf(ls, group, places) && |places| == |InGroup(ls, group)|
    ensures forall i | 0 <= i < |places| :: InGroup(ls, group)[i] == ls[places[i]]
  {
    places := [];
    if ls != [] {
      var init, l := ls[..|ls| - 1], ls[|ls| - 1];
      places := InGroupKeepsOrder(init, group);
      PlacesGrow(init, l, group, places);
      assert ls == init + [l];
      places := places + if group in l.groups then [|init|] else [];
    }
  }

  function SummaryLabels(): seq<VulnerabilityLabel> {
    InGroup(METRIC_LABELS, GroupSummary)
  }

  lemma ReportNameInTable()
    ensures VulnerabilityLabel("report_name", [GroupAll, GroupSummary], ReportScope) in METRIC_LABELS
  {
    assert METRIC_LABELS[1] in METRIC_LABELS;
  }

  lemma EverythingIsInAll()
    ensures forall l | l in METRIC_LABELS :: GroupAll in l.groups
  {
    forall i | 0 <= i < |METRIC_LABELS|
      ensures GroupAll in METRIC_LABELS[i].groups
    {
      assert METRIC_LABELS[i].groups[0] == GroupAll;
    }
  }

  lemma ScannerInTable()
    ensures VulnerabilityLabel("scanner", [GroupAll, GroupSummary], ReportScope) in METRIC_LABELS
  {
    assert METRIC_LABELS[0] in METRIC_LABELS;
  }

  lemma SeverityInTable()
    ensures VulnerabilityLabel("severity", [GroupAll, GroupSummary], VulnerabilityScope) in METRIC_LABELS
  {
    assert METRIC_LABELS[7] in METRIC_LABELS;
  }

  lemma SummaryVulnerabilityLabel(l: VulnerabilityLabel)
    requires l in METRIC_LABELS && GroupSummary in l.groups && l.scope == VulnerabilityScope
    ensures l.name == "severity"
  {
  }
}
