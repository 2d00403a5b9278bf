/** The `target-labels` flag: what the labels collected over all its occurrences look like. */
module TargetLabels {
  import opened Metrics

  /** The entries of `items` whose names are not taken yet, each name once. */
  function NewItems(taken: set<string>, items: seq<VulnerabilityLabel>): seq<VulnerabilityLabel>
    decreases |items|
  {
    if items == [] then []
    else if items[0].name in taken then NewItems(taken, items[1..])
    else [items[0]] + NewItems(taken + {items[0].name}, items[1..])
  }

  lemma NamesOfMore(l: VulnerabilityLabel, ls: seq<VulnerabilityLabel>)
    ensures NameSet([l] + ls) == {l.name} + NameSet(ls)
  {
    assert forall x :: x in [l] + ls <==> x == l || x in ls;
  }

  lemma {:induction false} NewItemsFacts(taken: set<string>, items: seq<VulnerabilityLabel>)
    ensures DistinctNames(NewItems(taken, items))
    ensures forall l | l in NewItems(taken, items) :: l in items && l.name !in taken
    ensures taken + NameSet(NewItems(taken, items)) == taken + NameSet(items)
    decreases |items|
  {
    if items != [] {
      var head, rest := items[0], items[1..];
      assert items == [head] + rest;
      NamesOfMore(head, rest);
      if head.name in taken {
        NewItemsFacts(taken, rest);
      } else {
        var taken' := taken + {head.name};
        NewItemsFacts(taken', rest);
        var more := NewItems(taken', rest);
        NamesOfMore(head, more);
        assert taken + ({head.name} + NameSet(more)) == taken' + NameSet(more);
        assert taken + ({head.name} + NameSet(rest)) == taken' + NameSet(rest);
      }
    }
  }

  lemma {:induction false} NewItemsExtended(taken: set<string>, items: seq<VulnerabilityLabel>, l: VulnerabilityLabel)
    ensures NewItems(taken, items + [l]) == NewItems(taken, items)
              + if l.name in taken + NameSet(items) then [] else [l]
    decreases |items|
  {
    if items == [] {
      assert items + [l] == [l];
    } else {
      assert (items + [l])[1..] == items[1..] + [l];
      assert items == [items[0]] + items[1..];
      assert NameSet(items) == {items[0].name} + NameSet(items[1..]);
      NewItemsExtended(if items[0].name in taken then taken else taken + {items[0].name}, items[1..], l);
      assert taken + {items[0].name} + NameSet(items[1..]) == taken + NameSet(items);
    }
  }

  /** The item's name is not taken, neither before nor by an earlier item. */
  predicate IsFresh(taken: set<string>, items: seq<VulnerabilityLabel>, n: int) {
    0 <= n < |items| && items[n].name !in taken && forall m | 0 <= m < n :: items[m].name != items[n].name
  }

  /** The places of the fresh items: increasing, and all of them. */
  ghost predicate FreshPlaces(taken: set<string>, items: seq<VulnerabilityLabel>, places: seq<int>) {
    && (forall i | 0 <= i < |places| :: IsFresh(taken, items, places[i]))
    && (forall i, j | 0 <= i < j < |places| :: places[i] < places[j])
    && (forall n | IsFresh(taken, items, n) :: n in places)
  }

  lemma FreshPlacesGrow(taken: set<string>, init: seq<VulnerabilityLabel>, l: VulnerabilityLabel, places: seq<int>)
    requires FreshPlaces(taken, init, places)
    ensures FreshPlaces(taken, init + [l], places + if l.name in taken + NameSet(init) then [] else [|init|])
  {
    var items, more := init + [l], places + if l.name in taken + NameSet(init) then [] else [|init|];
    assert items[..|items| - 1] == init;
    LastIsFreshIff(taken, items);
    forall n | 0 <= n < |init|
      ensures IsFresh(taken, items, n) <==> IsFresh(taken, init, n)
    {
      assert forall m | 0 <= m <= n :: items[m] == init[m];
    }
    forall n | IsFresh(taken, items, n)
      ensures n in more
    {
      if n == |init| {
        assert more[|places|] == n;
      }
    }
  }

  /** The new items are the fresh ones, in the order in which they are given. */
  lemma {:induction false} NewItemsInOrder(taken: set<string>, items: seq<VulnerabilityLabel>)
    returns (places: seq<int>)
    ensures FreshPlaces(taken, items, places) && |places| == |NewItems(taken, items)|
    ensures forall i | 0 <= i < |places| :: NewItems(taken, items)[i] == items[places[i]]
    decreases |items|
  {
    places := [];
    if items != [] {
      var init, l := items[..|items| - 1], items[|items| - 1];
      places := NewItemsInOrder(taken, init);
      FreshPlacesGrow(taken, init, l, places);
      NewItemsExtended(taken, init, l);
      assert items == init + [l];
      places := places + if l.name in taken + NameSet(init) then [] else [|init|];
    }
  }

  lemma LastIsFreshIff(taken: set<string>, items: seq<VulnerabilityLabel>)
    requires items != []
    ensures IsFresh(taken, items, |items| - 1) <==>
              items[|items| - 1].name !in taken + NameSet(items[..|items| - 1])
  {
    var init, l := items[..|items| - 1], items[|items| - 1];
    if l.name in NameSet(init) {
      var x :| x in init && x.name == l.name;
      var m :| 0 <= m < |init| && init[m] == x;
      assert items[m] == x;
    } else {
      forall m | 0 <= m < |items| - 1
        ensures items[m].name != l.name
      {
        assert items[m] in init;
      }
    }
  }

  method AppendIfNotExists(base: seq<VulnerabilityLabel>, items: seq<VulnerabilityLabel>)
    returns (result: seq<VulnerabilityLabel>)
    ensures result == base + NewItems(NameSet(base), items)
  {
    result := base;
    var contained := {};
    var names := LabelNamesForList(base);
    for i := 0 to |names|
      invariant contained == NameSet(base[..i])
    {
      assert base[..i + 1] == base[..i] + [base[i]];
      contained := contained + {names[i]};
    }
    assert base[..|base|] == base;
    for i := 0 to |items|
      invariant contained == NameSet(base) + NameSet(items[..i])
      invariant result == base + NewItems(NameSet(base), items[..i])
    {
      assert items[..i + 1] == items[..i] + [items[i]];
      NewItemsExtended(NameSet(base), items[..i], items[i]);
      if items[i].name !in contained {
        result := result + [items[i]];
        contained := contained + {items[i].name};
      }
    }
    assert items[..|items|] == items;
  }

  /** A list grew as the flag lets it grow: old entries first, table labels only, no name twice, these names added. */
  ghost predicate GrownBy(before: seq<VulnerabilityLabel>, after: seq<VulnerabilityLabel>, names: set<string>) {
    && before <= after
    && FromTable(after) && DistinctNames(after)
    && NameSet(after) == NameSet(before) + names
  }

  lemma AppendGrows(base: seq<VulnerabilityLabel>, items: seq<VulnerabilityLabel>)
    requires FromTable(base) && DistinctNames(base) && FromTable(items)
    ensures GrownBy(base, base + NewItems(NameSet(base), items), NameSet(items))
  {
    var added := NewItems(NameSet(base), items);
    NewItemsFacts(NameSet(base), items);
    assert NameSet(base + added) == NameSet(base) + NameSet(added);
    forall i, j | 0 <= i < |base| && 0 <= j < |added|
      ensures base[i].name != added[j].name
    {
      assert base[i] in base && added[j] in added;
    }
  }

  lemma GrowsOn(a: seq<VulnerabilityLabel>, b: seq<VulnerabilityLabel>, c: seq<VulnerabilityLabel>, m: set<string>,
                n: set<string>)
    requires GrownBy(a, b, m) && GrownBy(b, c, n)
    ensures GrownBy(a, c, m + n)
  {
  }

  const ALL := "all"

  /** The names one token asks for. */
  function Requested(token: string): set<string> {
    if token == ALL then NameSet(METRIC_LABELS) else {token}
  }

  function RequestedBy(tokens: seq<string>): set<string> {
    set t, n | t in tokens && n in Requested(t) :: n
  }

  /** The token "all" asks for every name of the table, and any other token for its own name alone. */
  lemma TokensAskFor(token: string)
    ensures ALL == "all"
    ensures token == "all" ==> Requested(token) == NameSet(METRIC_LABELS)
    ensures token != "all" ==> Requested(token) == {token}
    ensures Known(token) <==> token == "all" || exists l :: l in METRIC_LABELS && l.name == token
  {
  }

  predicate Known(token: string) {
    token == ALL || token in NameSet(METRIC_LABELS)
  }

  lemma NameOfOne(l: VulnerabilityLabel)
    ensures NameSet([l]) == {l.name}
  {
  }

  predicate AllKnown(tokens: seq<string>) {
    forall t | t in tokens :: Known(t)
  }

  predicate FirstUnknown(tokens: seq<string>, n: int) {
    0 <= n < |tokens| && !Known(tokens[n]) && AllKnown(tokens[..n])
  }

  /** What one occurrence of the flag brings: detail series need the report's name in any case. */
  function Brought(tokens: seq<string>): set<string> {
    RequestedBy(tokens) + {"report_name"}
  }

  /** What all occurrences of the flag bring together. */
  function BroughtByAll(occurrences: seq<seq<string>>): set<string> {
    set o, n | o in occurrences && n in Brought(o) :: n
  }

  lemma OccurrencesExtended(occurrences: seq<seq<string>>, o: seq<string>)
    ensures BroughtByAll(occurrences + [o]) == BroughtByAll(occurrences) + Brought(o)
  {
    assert o in occurrences + [o];
    assert forall x :: x in occurrences + [o] <==> x in occurrences || x == o;
  }

  lemma RequestedExtended(tokens: seq<string>, t: string)
    ensures RequestedBy(tokens + [t]) == RequestedBy(tokens) + Requested(t)
  {
    assert forall x :: x in tokens + [t] <==> x in tokens || x == t;
  }

  lemma AllGroupIsTheTable()
    ensures NameSet(InGroup(METRIC_LABELS, GroupAll)) == NameSet(METRIC_LABELS)
    ensures FromTable(InGroup(METRIC_LABELS, GroupAll))
  {
    InGroupMembers(METRIC_LABELS, GroupAll);
    EverythingIsInAll();
  }

  /** The variable that the flag's closure captures. */
  class TargetLabelsFlag {
    var targetLabels: seq<VulnerabilityLabel>

    ghost predicate Valid()
      reads this
    {
      FromTable(targetLabels) && DistinctNames(targetLabels)
    }

    constructor ()
      ensures Valid() && targetLabels == []
    {
      targetLabels := [];
    }

    method Add(items: seq<VulnerabilityLabel>)
      requires Valid() && FromTable(items)
      modifies this
      ensures GrownBy(old(targetLabels), targetLabels, NameSet(items))
    {
      AppendGrows(targetLabels, items);
      targetLabels := AppendIfNotExists(targetLabels, items);
    }

    /** One token of the list. */
    method Take(token: string) returns (ok: bool)
      requires Valid()
      modifies this
      ensures ok <==> Known(token)
      ensures GrownBy(old(targetLabels), targetLabels, if ok then Requested(token) else {})
    {
      if token == ALL {
        var all := LabelsForGroup(GroupAll);
        AllGroupIsTheTable();
        Add(all);
        return true;
      }
      var found, known := LabelWithName(token);
      if !known {
        return false;
      }
      Add([found]);
      NameOfOne(found);
      return true;
    }

    /** The tokens in turn, up to the first that is not known; `n` of them are taken. */
    method TakeAll(tokens: seq<string>) returns (ok: bool, ghost n: nat)
      requires Valid()
      modifies this
      ensures n <= |tokens| && AllKnown(tokens[..n]) && (if ok then n == |tokens| else FirstUnknown(tokens, n))
      ensures GrownBy(old(targetLabels), targetLabels, RequestedBy(tokens[..n]))
    {
      assert NameSet(targetLabels) == NameSet(targetLabels) + {};
      for i := 0 to |tokens|
        invariant GrownBy(old(targetLabels), targetLabels, RequestedBy(tokens[..i]))
        invariant AllKnown(tokens[..i])
      {
        ghost var before := targetLabels;
        var taken := Take(tokens[i]);
        GrowsOn(old(targetLabels), before, targetLabels, RequestedBy(tokens[..i]),
                if taken then Requested(tokens[i]) else {});
        if !taken {
          return false, i;
        }
        assert tokens[..i + 1] == tokens[..i] + [tokens[i]];
        RequestedExtended(tokens[..i], tokens[i]);
      }
      return true, |tokens|;
    }

    /**
     * One occurrence of the flag, with its comma-separated tokens. It is accepted exactly if all tokens are known;
     * then the labels are those there were, in front and in place, and those asked for and `report_name`, each once.
     * Otherwise the tokens before the first unknown one have been taken.
     */
    method Parse(tokens: seq<string>) returns (ok: bool)
      requires Valid()
      modifies this
      ensures Valid()
      ensures ok <==> AllKnown(tokens)
      ensures ok ==> GrownBy(old(targetLabels), targetLabels, Brought(tokens))
      ensures ok ==> ValidTargets(targetLabels)
      ensures !ok ==> exists n :: FirstUnknown(tokens, n)
                                  && GrownBy(old(targetLabels), targetLabels, RequestedBy(tokens[..n]))
    {
      ghost var n;
      ok, n := TakeAll(tokens);
      if !ok {
        assert tokens[n] in tokens;
        return false;
      }
      assert tokens[..n] == tokens;
      ghost var before := targetLabels;
      AddReportName();
      GrowsOn(old(targetLabels), before, targetLabels, RequestedBy(tokens), {"report_name"});
    }

    /** Every occurrence of the flag in turn, up to the first that is not accepted. */
    method ParseAll(occurrences: seq<seq<string>>) returns (ok: bool)
      requires Valid() && targetLabels == []
      modifies this
      ensures ok <==> forall o | o in occurrences :: AllKnown(o)
      ensures ok ==> ValidTargets(targetLabels) && NameSet(targetLabels) == BroughtByAll(occurrences)
    {
      for i := 0 to |occurrences|
        invariant ValidTargets(targetLabels) && NameSet(targetLabels) == BroughtByAll(occurrences[..i])
        invariant forall o | o in occurrences[..i] :: AllKnown(o)
      {
        assert occurrences[..i + 1] == occurrences[..i] + [occurrences[i]];
        var taken := Parse(occurrences[i]);
        if !taken {
          assert occurrences[i] in occurrences;
          return false;
        }
        OccurrencesExtended(occurrences[..i], occurrences[i]);
      }
      assert occurrences[..|occurrences|] == occurrences;
      return true;
    }

    /** Detail series are deleted by report name later, so they must carry it. */
    method AddReportName()
      requires Valid()
      modifies this
      ensures GrownBy(old(targetLabels), targetLabels, {"report_name"})
      ensures ValidTargets(targetLabels)
    {
      ReportNameIsKnown();
      var reportNameLabel, known := LabelWithName("report_name");
      Add([reportNameLabel]);
      NameOfOne(reportNameLabel);
      ReportNameIsReportScope(targetLabels);
    }
  }

  lemma ReportNameIsKnown()
    ensures "report_name" in NameSet(METRIC_LABELS)
  {
    ReportNameInTable();
  }

  lemma ReportNameIsReportScope(ls: seq<VulnerabilityLabel>)
    requires FromTable(ls) && "report_name" in NameSet(ls)
    ensures "report_name" in ScopeNames(ls, ReportScope)
  {
    var l :| l in ls && l.name == "report_name";
    TableIsDistinct();
    ReportNameInTable();
  }
}
