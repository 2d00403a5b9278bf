/** The part of the fleet's invariant that speaks of the series one pod shows for one report. */
module FleetGauges {
  import opened Metrics
  import opened Gauges
  import opened Reports
  import opened Fleet
  import opened FleetControl

  ghost predicate FromReport(cfg: Config, k: Key, r: Report, v: Store) {
    forall s | s in v :: IsWriteOf(cfg.targets, k, r, Write(s, v[s]))
  }

  /** All series stem from one and the same version of the report. */
  ghost predicate SingleVersion(cfg: Config, k: Key, h: History, v: Store) {
    v == map[] || exists i :: 0 <= i < |h| && h[i].Present? && FromReport(cfg, k, h[i].obj.report, v)
  }

  /** What the pod is showing, told from its control state. */
  datatype Showing =
    | Nothing
    | Leftovers                                // of one version
    | DetailLeftovers                          // of one version, and none of the summaries
    | Part(report: Report, plan: seq<Write>, next: nat)
    | Whole(report: Report)

  function ShowingOf(h: History, l: Local): Showing {
    match l.pc
    case Idle => (
      match l.outcome
      case Exported(ver) => if ver < |h| && h[ver].Present? then Whole(h[ver].obj.report) else Leftovers
      case Failed => Leftovers
      case _ => Nothing)
    case Taken => Leftovers
    case SummariesCleared => DetailLeftovers
    case Publishing(c, plan, next) => Part(c.obj.report, plan, next)
    case Finalizing(c) => Whole(c.obj.report)
    case Labelling(c) => Whole(c.obj.report)
    case _ => Nothing
  }

  ghost predicate OrderPlan(cfg: Config, k: Key, r: Report, order: seq<string>, plan: seq<Write>) {
    && IsOrder(order, Counts(r).Keys)
    && (forall s | s in order :: s in Counts(r))
    && plan == Plan(cfg.targets, k, r, order)
  }

  ghost predicate IsPlan(cfg: Config, k: Key, r: Report, plan: seq<Write>) {
    exists order :: OrderPlan(cfg, k, r, order, plan)
  }

  predicate HasVersion(h: History, r: Report) {
    exists i :: 0 <= i < |h| && h[i].Present? && h[i].obj.report == r
  }

  ghost predicate ShowInv(cfg: Config, k: Key, h: History, showing: Showing, v: Store) {
    match showing
    case Nothing => v == map[]
    case Leftovers => SingleVersion(cfg, k, h, v)
    case DetailLeftovers => SingleVersion(cfg, k, h, v) && forall s | s in v :: s.gauge == Details
    case Part(r, plan, next) =>
      HasVersion(h, r) && IsPlan(cfg, k, r, plan) && next <= |plan| && v == PutAll(map[], plan[..next])
    case Whole(r) => HasVersion(h, r) && v == Expected(cfg.targets, k, r)
  }

  // ---- Every showing is of one version ---------------------------------

  lemma ExpectedIsFromReport(cfg: Config, k: Key, r: Report)
    ensures FromReport(cfg, k, r, Expected(cfg.targets, k, r))
  {
    forall s | s in Expected(cfg.targets, k, r)
      ensures IsWriteOf(cfg.targets, k, r, Write(s, Expected(cfg.targets, k, r)[s]))
    {
      ExpectedAreWrites(cfg.targets, k, r, s);
    }
  }

  lemma PrefixIsFromReport(cfg: Config, k: Key, r: Report, plan: seq<Write>, n: nat)
    requires IsPlan(cfg, k, r, plan) && n <= |plan|
    ensures FromReport(cfg, k, r, PutAll(map[], plan[..n]))
  {
    var order :| OrderPlan(cfg, k, r, order, plan);
    PlanWrites(cfg.targets, k, r, order);
    PublishedAreWrites(plan[..n]);
    assert forall w | w in plan[..n] :: w in plan;
  }

  lemma OneVersion(cfg: Config, k: Key, h: History, r: Report, v: Store)
    requires HasVersion(h, r) && FromReport(cfg, k, r, v)
    ensures SingleVersion(cfg, k, h, v)
  {
  }

  lemma ShowingIsSingle(cfg: Config, k: Key, h: History, showing: Showing, v: Store)
    requires ShowInv(cfg, k, h, showing, v)
    ensures SingleVersion(cfg, k, h, v)
  {
    match showing {
      case Part(r, plan, next) =>
        PrefixIsFromReport(cfg, k, r, plan, next);
        OneVersion(cfg, k, h, r, v);
      case Whole(r) =>
        ExpectedIsFromReport(cfg, k, r);
        OneVersion(cfg, k, h, r, v);
      case _ =>
    }
  }

  lemma HasVersionGrows(h: History, r: Report, c: Content)
    requires HasVersion(h, r)
    ensures HasVersion(h + [c], r)
  {
    var i :| 0 <= i < |h| && h[i].Present? && h[i].obj.report == r;
    assert (h + [c])[i] == h[i];
  }

  lemma SingleVersionGrows(cfg: Config, k: Key, h: History, v: Store, c: Content)
    requires SingleVersion(cfg, k, h, v)
    ensures SingleVersion(cfg, k, h + [c], v)
  {
    if v != map[] {
      var i :| 0 <= i < |h| && h[i].Present? && FromReport(cfg, k, h[i].obj.report, v);
      assert (h + [c])[i] == h[i];
    }
  }

  lemma ShowGrows(cfg: Config, k: Key, h: History, showing: Showing, v: Store, c: Content)
    requires ShowInv(cfg, k, h, showing, v)
    ensures ShowInv(cfg, k, h + [c], showing, v)
  {
    match showing {
      case Part(r, plan, next) => HasVersionGrows(h, r, c);
      case Whole(r) => HasVersionGrows(h, r, c);
      case Leftovers => SingleVersionGrows(cfg, k, h, v, c);
      case DetailLeftovers => SingleVersionGrows(cfg, k, h, v, c);
      case Nothing =>
    }
  }

  lemma ShowingOfGrows(cfg: Config, k: Key, p: Pod, h: History, l: Local, c: Content)
    requires ControlInv(cfg, k, p, h, l)
    ensures ShowingOf(h + [c], l) == ShowingOf(h, l)
  {
    assert forall i | 0 <= i < |h| :: (h + [c])[i] == h[i];
  }

  // ---- Steps -----------------------------------------------------------

  lemma ClearSummariesShows(cfg: Config, k: Key, h: History, g: Store)
    requires SingleVersion(cfg, k, h, View(g, k.String()))
    ensures ShowInv(cfg, k, h, DetailLeftovers, View(Clear(g, Summary, k.String()), k.String()))
  {
    var v, v' := View(g, k.String()), Clear(View(g, k.String()), Summary, k.String());
    ViewAfterClear(g, Summary, k.String(), k.String());
    if v' != map[] {
      assert v != map[];
      var i :| 0 <= i < |h| && h[i].Present? && FromReport(cfg, k, h[i].obj.report, v);
      assert FromReport(cfg, k, h[i].obj.report, v');
    }
  }

  lemma ClearDetailsShows(cfg: Config, k: Key, h: History, g: Store)
    requires ShowInv(cfg, k, h, DetailLeftovers, View(g, k.String()))
    ensures View(Clear(g, Details, k.String()), k.String()) == map[]
  {
    ViewAfterClear(g, Details, k.String(), k.String());
  }

  lemma StartShows(cfg: Config, k: Key, h: History, r: Report, order: seq<string>)
    requires HasVersion(h, r) && IsOrder(order, Counts(r).Keys)
    ensures forall s | s in order :: s in Counts(r)
    ensures ShowInv(cfg, k, h, Part(r, Plan(cfg.targets, k, r, order), 0), map[])
  {
    OrderWithin(order, Counts(r).Keys);
    assert OrderPlan(cfg, k, r, order, Plan(cfg.targets, k, r, order));
  }

  lemma PartIsNamed(cfg: Config, k: Key, h: History, r: Report, plan: seq<Write>, n: nat, v: Store)
    requires ValidTargets(cfg.targets)
    requires n < |plan| && ShowInv(cfg, k, h, Part(r, plan, n), v)
    ensures HasName(plan[n].series, k.String())
  {
    PlanIsNamed(cfg, k, r, plan, n);
  }

  lemma PartGoesOn(cfg: Config, k: Key, h: History, r: Report, plan: seq<Write>, n: nat, v: Store)
    requires n < |plan| && ShowInv(cfg, k, h, Part(r, plan, n), v)
    ensures ShowInv(cfg, k, h, Part(r, plan, n + 1), Put(v, plan[n]))
  {
    PutOneMore(map[], plan, n);
  }

  lemma PublishNextShows(cfg: Config, k: Key, h: History, r: Report, plan: seq<Write>, n: nat, g: Store)
    requires ValidTargets(cfg.targets)
    requires n < |plan| && ShowInv(cfg, k, h, Part(r, plan, n), View(g, k.String()))
    ensures ShowInv(cfg, k, h, Part(r, plan, n + 1), View(Put(g, plan[n]), k.String()))
  {
    PartIsNamed(cfg, k, h, r, plan, n, View(g, k.String()));
    PartGoesOn(cfg, k, h, r, plan, n, View(g, k.String()));
    ViewAfterPut(g, plan[n], k.String());
  }

  lemma PlanIsNamed(cfg: Config, k: Key, r: Report, plan: seq<Write>, n: nat)
    requires ValidTargets(cfg.targets)
    requires IsPlan(cfg, k, r, plan) && n < |plan|
    ensures HasName(plan[n].series, k.String())
  {
    var order :| OrderPlan(cfg, k, r, order, plan);
    PlanWrites(cfg.targets, k, r, order);
    WritesAreNamed(cfg.targets, k, r, plan[n]);
  }

  lemma EndPublishShows(cfg: Config, k: Key, h: History, r: Report, plan: seq<Write>, n: nat, v: Store)
    requires n >= |plan| && ShowInv(cfg, k, h, Part(r, plan, n), v)
    ensures ShowInv(cfg, k, h, Whole(r), v)
  {
    assert plan[..n] == plan;
    var order :| OrderPlan(cfg, k, r, order, plan);
    PlanGivesExpected(cfg.targets, k, r, order);
  }
}
