/**
 * The protocol comes to rest: while the scanner, the rings and the timers stand still, and no report that is there to
 * stay has two pods that each take it for theirs, every run of the fleet is bounded, and a run that cannot go on has
 * converged.
 */
module FleetQuiescence {
  import opened Metrics
  import opened Gauges
  import opened Reports
  import opened Fleet
  import opened FleetControl
  import opened FleetGauges
  import opened FleetSafety
  import opened FleetTheorems

  /** Actions that follow from a watch event; not timers, rate-limited retries or the shutdown hook. */
  predicate IsEvent(a: Action) {
    !(a.RetryFires? || a.TimerFires? || a.ShutdownRead? || a.ShutdownWrite?)
  }

  ghost predicate AllEvents(steps: seq<Step>) {
    forall i | 0 <= i < |steps| :: steps[i].Exporter? && IsEvent(steps[i].action)
  }

  // ---- The size of a publication ---------------------------------------

  function PlanSize(cfg: Config, r: Report): nat {
    6 + if cfg.targets == [] then 0 else VulnerabilityCount(r)
  }

  function PlanBound(cfg: Config, h: seq<Content>): nat {
    if h == [] then 0
    else
      var rest := PlanBound(cfg, h[..|h| - 1]);
      var c := h[|h| - 1];
      if c.Present? && PlanSize(cfg, c.obj.report) > rest then PlanSize(cfg, c.obj.report) else rest
  }

  lemma {:induction false} PlanBoundCovers(cfg: Config, h: seq<Content>, i: nat)
    requires i < |h| && h[i].Present?
    ensures PlanSize(cfg, h[i].obj.report) <= PlanBound(cfg, h)
  {
    if i < |h| - 1 {
      PlanBoundCovers(cfg, h[..|h| - 1], i);
    }
  }

  lemma PlanBoundStays(cfg: Config, h: History, c: Content)
    requires c.Present? ==> Last(h).Present? && Last(h).obj.report == c.obj.report
    ensures PlanBound(cfg, h + [c]) == PlanBound(cfg, h)
  {
    assert (h + [c])[..|h + [c]| - 1] == h;
    if c.Present? {
      PlanBoundCovers(cfg, h, Latest(h));
    }
  }

  lemma {:induction false} DistinctSize(xs: seq<string>)
    requires forall i, j | 0 <= i < j < |xs| :: xs[i] != xs[j]
    ensures |set x | x in xs| == |xs|
  {
    if xs != [] {
      var init, x := xs[..|xs| - 1], xs[|xs| - 1];
      DistinctSize(init);
      assert xs == init + [x];
      assert (set y | y in xs) == (set y | y in init) + {x};
      assert x !in (set y | y in init);
    }
  }

  lemma PlanFits(cfg: Config, k: Key, r: Report, order: seq<string>)
    requires IsOrder(order, Counts(r).Keys)
    ensures forall s | s in order :: s in Counts(r)
    ensures |Plan(cfg.targets, k, r, order)| <= PlanSize(cfg, r)
  {
    OrderWithin(order, Counts(r).Keys);
    DistinctSize(order);
    assert |KUBESCAPE_SEVERITIES| <= 6 && |TRIVY_SEVERITIES| <= 6;
  }

  // ---- The measure of one pod and one report ---------------------------

  /** How many steps a reconcile at this stage has before it, when no plan is longer than `bound`. */
  function Ahead(bound: nat, pc: Pc): nat {
    match pc
    case Idle => 0
    case Labelling(_) => 1
    case Finalizing(_) => 2
    case Publishing(_, plan, next) => 3 + if next <= |plan| then |plan| - next else 0
    case Ready(_) => 4 + bound
    case Storing(_) => 5 + bound
    case Hydrating(_) => 6 + bound
    case Loading(_) => 7 + bound
    case Owning => 8 + bound
    case Cleared => 9 + bound
    case SummariesCleared => 10 + bound
    case Taken => 11 + bound
  }

  function Times(n: nat, w: nat): nat {
    if n == 0 then 0 else w + Times(n - 1, w)
  }

  function Lag(h: History, l: Local): nat {
    if l.cached < Latest(h) then Latest(h) - l.cached else 0
  }

  function InHand(bound: nat, l: Local): nat {
    Ahead(bound, l.pc) + if l.queued then 12 + bound else 0
  }

  /** What is in hand or queued, and what is still to be delivered. */
  function Effort(bound: nat, h: History, l: Local): nat {
    InHand(bound, l) + Times(Lag(h, l), 13 + bound)
  }

  predicate PastCheck(pc: Pc) {
    !pc.Idle? && !BeforeCheck(pc)
  }

  /** A pod other than the believer may still be on its way to writing its label. */
  function Stale(believer: Pod, p: Pod, l: Local): nat {
    if p != believer && PastCheck(l.pc) then 1 else 0
  }

  /** Writes the believer may have before it. */
  function Debts(believer: Pod, h: History): nat {
    if Last(h).Present?
    then (if Last(h).obj.owner != believer then 1 else 0) + (if Last(h).obj.finalizer then 1 else 0)
    else 0
  }

  lemma {:induction false} TimesGrows(m: nat, n: nat, w: nat)
    requires m < n
    ensures Times(m, w) + w <= Times(n, w)
  {
    if m < n - 1 {
      TimesGrows(m, n - 1, w);
    }
  }

  lemma DeliverEases(bound: nat, h: History, l: Local, ver: nat)
    requires l.cached < ver <= Latest(h)
    ensures Effort(bound, h, Delivering(h, l, ver)) < Effort(bound, h, l)
  {
    TimesGrows(Lag(h, Delivering(h, l, ver)), Lag(h, l), 13 + bound);
  }

  /** An action that makes no new version brings its pod nearer to rest. */
  ghost predicate Eases(bound: nat, h: History, l: Local, l': Local) {
    Effort(bound, h, l') < Effort(bound, h, l)
  }

  lemma LocalEases(bound: nat, h: History, l: Local, l': Local)
    requires l'.cached == l.cached && InHand(bound, l') < InHand(bound, l)
    ensures Eases(bound, h, l, l')
  {
  }

  lemma CheckEases(cfg: Config, k: Key, p: Pod, ring: set<Pod>, h: History, l: Local, bound: nat)
    ensures l.pc.Idle? && l.queued ==> Eases(bound, h, l, Taking(l))
    ensures l.pc.Cleared? ==> Eases(bound, h, l, Checking(cfg, k, p, ring, l))
  {
  }

  lemma ReadBaseEases(h: History, l: Local, bound: nat, stripped: bool)
    requires l.cached < |h| && l.pc.Owning?
    ensures Eases(bound, h, l, ReadingBase(h, l, stripped))
  {
    LocalEases(bound, h, l, ReadingBase(h, l, stripped));
  }

  lemma HydrationEases(h: History, l: Local, bound: nat)
    ensures l.pc.Loading? ==> Eases(bound, h, l, LoadingStore(l))
    ensures l.pc.Hydrating? ==> Eases(bound, h, l, ReadingApi(h, l))
    ensures l.pc.Owning? || l.pc.Hydrating? ==> Eases(bound, h, l, Fail(l))
    ensures l.pc.Storing? ==> Eases(bound, h, l, WritingStore(l))
  {
  }

  lemma ClearEases(k: Key, h: History, l: Local, bound: nat)
    ensures l.pc.Taken? ==> Eases(bound, h, l, l.(pc := SummariesCleared))
    ensures l.pc.SummariesCleared? ==> Eases(bound, h, l, l.(pc := Cleared))
    ensures l.pc.Publishing? && l.pc.next < |l.pc.plan| ==> Eases(bound, h, l, l.(pc := l.pc.(next := l.pc.next + 1)))
    ensures l.pc.Publishing? ==> Eases(bound, h, l, EndingPublish(k, l))
  {
  }

  lemma StageEases(cfg: Config, k: Key, p: Pod, ring: set<Pod>, h: History, l: Local, g: Store, a: Action)
    requires l.cached < |h| && Enabled(cfg, k, p, ring, h, l, a)
    requires IsEvent(a) && !a.Deliver? && !a.Start? && !a.RemoveFinalizer? && !a.WriteLabel?
    ensures Act(cfg, k, p, ring, h, l, g, a).history == h
    ensures Eases(PlanBound(cfg, h), h, l, Act(cfg, k, p, ring, h, l, g, a).local)
  {
    var bound := PlanBound(cfg, h);
    match a {
      case Take => CheckEases(cfg, k, p, ring, h, l, bound);
      case CheckOwner => CheckEases(cfg, k, p, ring, h, l, bound);
      case ReadBase(stripped) => ReadBaseEases(h, l, bound, stripped);
      case ClearSummaries => ClearEases(k, h, l, bound);
      case ClearDetails => ClearEases(k, h, l, bound);
      case PublishNext => ClearEases(k, h, l, bound);
      case EndPublish => ClearEases(k, h, l, bound);
      case _ => HydrationEases(h, l, bound);
    }
  }

  lemma PlanWithin(cfg: Config, k: Key, h: History, c: Copy, order: seq<string>)
    requires Genuine(h, c) && IsOrder(order, Counts(c.obj.report).Keys)
    ensures forall s | s in order :: s in Counts(c.obj.report)
    ensures |Plan(cfg.targets, k, c.obj.report, order)| <= PlanBound(cfg, h)
  {
    PlanFits(cfg, k, c.obj.report, order);
    PlanBoundCovers(cfg, h, c.ver);
  }

  lemma StartEases(cfg: Config, k: Key, p: Pod, h: History, l: Local, order: seq<string>)
    requires l.pc.Ready? && Genuine(h, l.pc.copy) && IsOrder(order, Counts(l.pc.copy.obj.report).Keys)
    ensures Eases(PlanBound(cfg, h), h, l, Starting(cfg, k, l, order))
  {
    PlanWithin(cfg, k, h, l.pc.copy, order);
    PublishingEases(PlanBound(cfg, h), h, l, Plan(cfg.targets, k, l.pc.copy.obj.report, order));
  }

  lemma PublishingEases(bound: nat, h: History, l: Local, plan: seq<Write>)
    requires l.pc.Ready? && |plan| <= bound
    ensures Eases(bound, h, l, l.(pc := Publishing(l.pc.copy, plan, 0)))
  {
  }

  /** A write either makes no new version, or pays off a debt; of a report that is let go, it is the last one. */
  ghost predicate Pays(k: Key, bound: nat, believer: Pod, p: Pod, h: History, l: Local, h': History, l': Local) {
    || (h' == h && Eases(bound, h, l, l') && (Lasting(k, h) ==> Stale(believer, p, l') <= Stale(believer, p, l)))
    || (|h'| == |h| + 1 && h' == h + [h'[|h|]] && Eases(bound, h', l, l')
        && if Lasting(k, h) then
             Lasting(k, h')
             && 2 * Stale(believer, p, l') + Debts(believer, h') < 2 * Stale(believer, p, l) + Debts(believer, h)
           else Last(h).Present? && Last(h').Absent?)
  }

  lemma RemoveFinalizerPays(cfg: Config, k: Key, p: Pod, h: History, l: Local, io: Io, bound: nat, believer: Pod)
    requires ControlInv(cfg, k, p, h, l) && l.pc.Finalizing? && WellKept(Last(h))
    ensures var r := RemovingFinalizer(h, l, io); Pays(k, bound, believer, p, h, l, r.history, r.local)
  {
  }

  lemma WriteLabelPays(cfg: Config, k: Key, p: Pod, h: History, l: Local, io: Io, bound: nat, believer: Pod)
    requires ControlInv(cfg, k, p, h, l) && l.pc.Labelling? && WellKept(Last(h))
    ensures var r := WritingLabel(k, p, h, l, io); Pays(k, bound, believer, p, h, l, r.history, r.local)
  {
  }

  /** Nobody but the believer passes the check, so nobody becomes stale. */
  lemma StageStales(cfg: Config, k: Key, p: Pod, ring: set<Pod>, h: History, l: Local, g: Store, a: Action,
                    believer: Pod)
    requires Enabled(cfg, k, p, ring, h, l, a) && IsEvent(a)
    requires cfg.Owner(ring, k) == p ==> p == believer
    ensures Stale(believer, p, Act(cfg, k, p, ring, h, l, g, a).local) <= Stale(believer, p, l)
  {
  }

  lemma EventPays(cfg: Config, k: Key, p: Pod, ring: set<Pod>, h: History, l: Local, g: Store, a: Action, believer: Pod)
    requires ControlInv(cfg, k, p, h, l) && WellKept(Last(h)) && Enabled(cfg, k, p, ring, h, l, a) && IsEvent(a)
    requires Lasting(k, h) && cfg.Owner(ring, k) == p ==> p == believer
    ensures var e := Act(cfg, k, p, ring, h, l, g, a);
            Pays(k, PlanBound(cfg, h), believer, p, h, l, e.history, e.local)
  {
    var bound := PlanBound(cfg, h);
    if Lasting(k, h) {
      StageStales(cfg, k, p, ring, h, l, g, a, believer);
    }
    match a {
      case RemoveFinalizer(io) => RemoveFinalizerPays(cfg, k, p, h, l, io, bound, believer);
      case WriteLabel(io) => WriteLabelPays(cfg, k, p, h, l, io, bound, believer);
      case Deliver(ver) => DeliverEases(bound, h, l, ver);
      case Start(order) => StartEases(cfg, k, p, h, l, order);
      case _ => StageEases(cfg, k, p, ring, h, l, g, a);
    }
  }

  // ---- The measure of the fleet ----------------------------------------

  function Efforts(bound: nat, h: History, ps: seq<Pod>, ls: map<Pod, Local>): nat
    requires forall p | p in ps :: p in ls
  {
    if ps == [] then 0
    else Efforts(bound, h, ps[..|ps| - 1], ls) + Effort(bound, h, ls[ps[|ps| - 1]])
  }

  function Stales(believer: Pod, ps: seq<Pod>, ls: map<Pod, Local>): nat
    requires forall p | p in ps :: p in ls
  {
    if ps == [] then 0
    else Stales(believer, ps[..|ps| - 1], ls) + Stale(believer, ps[|ps| - 1], ls[ps[|ps| - 1]])
  }

  predicate Distinct<T(==)>(xs: seq<T>) {
    forall i, j | 0 <= i < j < |xs| :: xs[i] != xs[j]
  }

  lemma {:induction false} OthersStay(bound: nat, h: History, believer: Pod, ps: seq<Pod>, ls: map<Pod, Local>,
                                      p: Pod, l': Local)
    requires forall q | q in ps :: q in ls
    requires p !in ps
    ensures Efforts(bound, h, ps, ls[p := l']) == Efforts(bound, h, ps, ls)
    ensures Stales(believer, ps, ls[p := l']) == Stales(believer, ps, ls)
  {
    if ps != [] {
      assert ps[|ps| - 1] in ps;
      OthersStay(bound, h, believer, ps[..|ps| - 1], ls, p, l');
    }
  }

  lemma {:induction false} OneChanges(bound: nat, h: History, believer: Pod, ps: seq<Pod>, ls: map<Pod, Local>,
                                      p: Pod, l': Local)
    requires forall q | q in ps :: q in ls
    requires p in ps && Distinct(ps)
    ensures Efforts(bound, h, ps, ls[p := l']) + Effort(bound, h, ls[p])
         == Efforts(bound, h, ps, ls) + Effort(bound, h, l')
    ensures Stales(believer, ps, ls[p := l']) + Stale(believer, p, ls[p])
         == Stales(believer, ps, ls) + Stale(believer, p, l')
  {
    var init, q := ps[..|ps| - 1], ps[|ps| - 1];
    assert ps == init + [q];
    if q == p {
      OthersStay(bound, h, believer, init, ls, p, l');
    } else {
      OneChanges(bound, h, believer, init, ls, p, l');
    }
  }

  lemma EffortGrows(bound: nat, h: History, l: Local, c: Content)
    requires l.cached < |h|
    ensures Effort(bound, h + [c], l) == Effort(bound, h, l) + 13 + bound
  {
    assert Lag(h + [c], l) == Lag(h, l) + 1;
  }

  lemma {:induction false} EffortsGrow(bound: nat, h: History, ps: seq<Pod>, ls: map<Pod, Local>, c: Content)
    requires forall p | p in ps :: p in ls && ls[p].cached < |h|
    ensures Efforts(bound, h + [c], ps, ls) == Efforts(bound, h, ps, ls) + Times(|ps|, 13 + bound)
  {
    if ps != [] {
      assert ps[|ps| - 1] in ps;
      EffortsGrow(bound, h, ps[..|ps| - 1], ls, c);
      EffortGrows(bound, h, ls[ps[|ps| - 1]], c);
    }
  }

  /** Each write still to come is as dear as the news of it is to all pods. */
  function Weighed(writes: nat, news: nat, efforts: nat): nat {
    Times(writes, 1 + news) + efforts
  }

  /** The writes that can still come, when so many pods are stale. */
  function Writes(k: Key, believer: Pod, h: History, stales: nat): nat {
    if Lasting(k, h) then 2 * stales + Debts(believer, h) else if Last(h).Present? then 1 else 0
  }

  function News(cfg: Config, h: History): nat {
    Times(|cfg.pods|, 13 + PlanBound(cfg, h))
  }

  function KeyEnergy(cfg: Config, k: Key, believer: Pod, ks: KeyState): nat
    requires forall p | p in cfg.pods :: p in ks.locals
  {
    Weighed(Writes(k, believer, ks.history, Stales(believer, cfg.pods, ks.locals)), News(cfg, ks.history),
            Efforts(PlanBound(cfg, ks.history), ks.history, cfg.pods, ks.locals))
  }

  lemma WeighedFalls(writes: nat, writes': nat, news: nat, efforts: nat, efforts': nat)
    requires (writes' <= writes && efforts' < efforts) || (writes' < writes && efforts' < efforts + news)
    ensures Weighed(writes', news, efforts') < Weighed(writes, news, efforts)
  {
    if writes' < writes {
      TimesGrows(writes', writes, 1 + news);
    }
  }

  lemma SumsFollow(cfg: Config, believer: Pod, bound: nat, h: History, ls: map<Pod, Local>, p: Pod, l': Local)
    requires Distinct(cfg.pods) && p in cfg.pods
    requires forall q | q in cfg.pods :: q in ls
    ensures Eases(bound, h, ls[p], l') ==> Efforts(bound, h, cfg.pods, ls[p := l']) < Efforts(bound, h, cfg.pods, ls)
    ensures Stales(believer, cfg.pods, ls[p := l']) - Stales(believer, cfg.pods, ls)
         == Stale(believer, p, l') - Stale(believer, p, ls[p])
  {
    OneChanges(bound, h, believer, cfg.pods, ls, p, l');
  }

  lemma WritesFall(k: Key, bound: nat, believer: Pod, p: Pod, h: History, l: Local, h': History, l': Local,
                   stales: nat, stales': nat)
    requires Pays(k, bound, believer, p, h, l, h', l')
    requires stales' - stales == Stale(believer, p, l') - Stale(believer, p, l)
    ensures h' == h ==> Writes(k, believer, h, stales') <= Writes(k, believer, h, stales)
    ensures h' != h ==> Writes(k, believer, h', stales') < Writes(k, believer, h, stales)
  {
  }

  lemma KeyEnergyFalls(cfg: Config, k: Key, believer: Pod, ks: KeyState, p: Pod, h': History, l': Local)
    requires Distinct(cfg.pods) && p in cfg.pods
    requires forall q | q in cfg.pods :: q in ks.locals && ks.locals[q].cached < |ks.history|
    requires Pays(k, PlanBound(cfg, ks.history), believer, p, ks.history, ks.locals[p], h', l')
    requires PlanBound(cfg, h') == PlanBound(cfg, ks.history)
    ensures KeyEnergy(cfg, k, believer, KeyState(h', ks.scanned, ks.locals[p := l'])) < KeyEnergy(cfg, k, believer, ks)
  {
    var bound, h, ls := PlanBound(cfg, ks.history), ks.history, ks.locals;
    SumsFollow(cfg, believer, bound, h', ls, p, l');
    WritesFall(k, bound, believer, p, h, ls[p], h', l',
               Stales(believer, cfg.pods, ls), Stales(believer, cfg.pods, ls[p := l']));
    if h' == h {
      StillFalls(cfg, k, believer, ks, p, l');
    } else {
      GrownFalls(cfg, k, believer, ks, p, h'[|h|], l');
    }
  }

  lemma StillFalls(cfg: Config, k: Key, believer: Pod, ks: KeyState, p: Pod, l': Local)
    requires forall q | q in cfg.pods :: q in ks.locals
    requires var bound := PlanBound(cfg, ks.history);
             Efforts(bound, ks.history, cfg.pods, ks.locals[p := l']) < Efforts(bound, ks.history, cfg.pods, ks.locals)
    requires Writes(k, believer, ks.history, Stales(believer, cfg.pods, ks.locals[p := l']))
          <= Writes(k, believer, ks.history, Stales(believer, cfg.pods, ks.locals))
    ensures KeyEnergy(cfg, k, believer, ks.(locals := ks.locals[p := l'])) < KeyEnergy(cfg, k, believer, ks)
  {
    var bound, h, ls := PlanBound(cfg, ks.history), ks.history, ks.locals;
    WeighedFalls(Writes(k, believer, h, Stales(believer, cfg.pods, ls)),
                 Writes(k, believer, h, Stales(believer, cfg.pods, ls[p := l'])), News(cfg, h),
                 Efforts(bound, h, cfg.pods, ls), Efforts(bound, h, cfg.pods, ls[p := l']));
  }

  lemma GrownFalls(cfg: Config, k: Key, believer: Pod, ks: KeyState, p: Pod, c: Content, l': Local)
    requires forall q | q in cfg.pods :: q in ks.locals && ks.locals[q].cached < |ks.history|
    requires PlanBound(cfg, ks.history + [c]) == PlanBound(cfg, ks.history)
    requires var bound, h' := PlanBound(cfg, ks.history), ks.history + [c];
             Efforts(bound, h', cfg.pods, ks.locals[p := l']) < Efforts(bound, h', cfg.pods, ks.locals)
    requires Writes(k, believer, ks.history + [c], Stales(believer, cfg.pods, ks.locals[p := l']))
           < Writes(k, believer, ks.history, Stales(believer, cfg.pods, ks.locals))
    ensures KeyEnergy(cfg, k, believer, KeyState(ks.history + [c], ks.scanned, ks.locals[p := l']))
          < KeyEnergy(cfg, k, believer, ks)
  {
    var bound, h, ls := PlanBound(cfg, ks.history), ks.history, ks.locals;
    EffortsGrow(bound, h, cfg.pods, ls, c);
    WeighedFalls(Writes(k, believer, h, Stales(believer, cfg.pods, ls)),
                 Writes(k, believer, h + [c], Stales(believer, cfg.pods, ls[p := l'])), News(cfg, h),
                 Efforts(bound, h, cfg.pods, ls), Efforts(bound, h + [c], cfg.pods, ls[p := l']));
  }

  function Energy(cfg: Config, s: State, believers: map<Key, Pod>, ks: seq<Key>): nat
    requires forall k | k in ks :: k in s.keys && k in believers
    requires forall k, p | k in ks && p in cfg.pods :: p in s.keys[k].locals
  {
    if ks == [] then 0
    else Energy(cfg, s, believers, ks[..|ks| - 1])
         + KeyEnergy(cfg, ks[|ks| - 1], believers[ks[|ks| - 1]], s.keys[ks[|ks| - 1]])
  }

  /** Of each report that is not absent or let go, at most one pod believes, by its own ring, that it is the owner. */
  ghost predicate SoleBelievers(cfg: Config, s: State, believers: map<Key, Pod>)
    requires WellFormed(cfg, s)
  {
    forall k | k in cfg.keys :: k in believers
      && (Lasting(k, HistoryOf(cfg, s, k)) ==>
            forall p | p in cfg.pods && cfg.Owner(s.rings[p], k) == p :: p == believers[k])
  }

  lemma {:induction false} OneKeyFalls(cfg: Config, s: State, s': State, believers: map<Key, Pod>, ks: seq<Key>, k: Key)
    requires forall x | x in ks :: x in s.keys && x in s'.keys && x in believers
    requires forall x, p | x in ks && p in cfg.pods :: p in s.keys[x].locals && p in s'.keys[x].locals
    requires forall x | x in ks && x != k :: s'.keys[x] == s.keys[x]
    requires k in s.keys && k in s'.keys && k in believers
    requires forall p | p in cfg.pods :: p in s.keys[k].locals && p in s'.keys[k].locals
    requires KeyEnergy(cfg, k, believers[k], s'.keys[k]) < KeyEnergy(cfg, k, believers[k], s.keys[k])
    ensures k in ks ==> Energy(cfg, s', believers, ks) < Energy(cfg, s, believers, ks)
    ensures Energy(cfg, s', believers, ks) <= Energy(cfg, s, believers, ks)
  {
    if ks != [] {
      var init, x := ks[..|ks| - 1], ks[|ks| - 1];
      OneKeyFalls(cfg, s, s', believers, init, k);
      assert x in ks && (k in ks <==> k in init || k == x);
      if x != k {
        assert s'.keys[x] == s.keys[x];
      }
    }
  }

  lemma LastingStays(k: Key, h: History, h': History)
    requires HistoryStep(h, h')
    ensures Lasting(k, h') ==> Lasting(k, h)
  {
    if h' != h {
      assert h' == h + [Last(h')];
    }
  }

  lemma SoleStays(cfg: Config, s: State, s': State, believers: map<Key, Pod>, k: Key)
    requires WellFormed(cfg, s) && WellFormed(cfg, s') && k in cfg.keys && SoleBelievers(cfg, s, believers)
    requires s'.rings == s.rings && HistoryStep(HistoryOf(cfg, s, k), HistoryOf(cfg, s', k))
    requires forall x | x in cfg.keys && x != k :: s'.keys[x] == s.keys[x]
    ensures SoleBelievers(cfg, s', believers)
  {
    LastingStays(k, HistoryOf(cfg, s, k), HistoryOf(cfg, s', k));
    forall x | x in cfg.keys
      ensures Lasting(x, HistoryOf(cfg, s', x)) ==> Lasting(x, HistoryOf(cfg, s, x))
    {
    }
  }

  lemma EventLowers(cfg: Config, s: State, step: Step, believers: map<Key, Pod>)
    requires cfg.Valid() && Inv(cfg, s) && SoleBelievers(cfg, s, believers)
    requires Allowed(cfg, s, step) && step.Exporter? && IsEvent(step.action)
    ensures SoleBelievers(cfg, Next(cfg, s, step), believers)
    ensures Energy(cfg, Next(cfg, s, step), believers, cfg.keys) < Energy(cfg, s, believers, cfg.keys)
  {
    var k, p, a := step.key, step.pod, step.action;
    var ks, l := s.keys[k], s.keys[k].locals[p];
    var e := Act(cfg, k, p, s.rings[p], ks.history, l, s.gauges[p], a);
    assert KeyInv(cfg, s, k);
    forall q | q in cfg.pods ensures ks.locals[q].cached < |ks.history| { AtPair(cfg, s, k, q); }
    AtPair(cfg, s, k, p);
    EventPays(cfg, k, p, s.rings[p], ks.history, l, s.gauges[p], a, believers[k]);
    ActionKeeps(cfg, k, p, s.rings[p], ks.history, l, s.gauges[p], a);
    SoleStays(cfg, s, Next(cfg, s, step), believers, k);
    BoundStays(cfg, ks.history, e.history);
    KeyEnergyFalls(cfg, k, believers[k], ks, p, e.history, e.local);
    OneKeyFalls(cfg, s, Next(cfg, s, step), believers, cfg.keys, k);
  }

  lemma BoundStays(cfg: Config, h: History, h': History)
    requires HistoryStep(h, h')
    ensures PlanBound(cfg, h') == PlanBound(cfg, h)
  {
    if h' != h {
      assert h' == h + [Last(h')];
      PlanBoundStays(cfg, h, Last(h'));
    }
  }

  lemma {:induction false} BoundedFrom(cfg: Config, s: State, steps: seq<Step>, believers: map<Key, Pod>)
    requires cfg.Valid() && Inv(cfg, s) && SoleBelievers(cfg, s, believers)
    requires CanRun(cfg, s, steps) && AllEvents(steps)
    ensures |steps| <= Energy(cfg, s, believers, cfg.keys)
    decreases |steps|
  {
    if steps != [] {
      EventLowers(cfg, s, steps[0], believers);
      StepKeeps(cfg, s, steps[0]);
      AllEventsTail(steps);
      BoundedFrom(cfg, Next(cfg, s, steps[0]), steps[1..], believers);
    }
  }

  lemma AllEventsTail(steps: seq<Step>)
    requires AllEvents(steps) && steps != []
    ensures AllEvents(steps[1..])
  {
  }

  /** From every reachable state in which no lasting report has two believers, whatever the events do, they come to an
      end: no run of events is longer than the energy of the state. */
  lemma EventRunsEnd(cfg: Config, s: State, steps: seq<Step>, believers: map<Key, Pod>)
    requires cfg.Valid() && Reachable(cfg, s) && SoleBelievers(cfg, s, believers)
    requires CanRun(cfg, s, steps) && AllEvents(steps)
    ensures |steps| <= Energy(cfg, s, believers, cfg.keys)
  {
    ReachableInv(cfg, s);
    BoundedFrom(cfg, s, steps, believers);
  }
}
