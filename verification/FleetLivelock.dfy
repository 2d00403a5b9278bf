/**
 * The condition for coming to rest is needed: while two pods each take a report for theirs that is there to stay, they
 * can take it from each other any number of times.
 */
module FleetLivelock {
  import opened Metrics
  import opened Gauges
  import opened Reports
  import opened Fleet
  import opened FleetControl
  import opened FleetGauges
  import opened FleetSafety
  import opened FleetTheorems
  import opened FleetQuiescence
  import opened FleetConvergence

  /** The report exists and the exporters will not let it go. */
  predicate Standing(k: Key, h: History) {
    Lasting(k, h) && WellKept(Last(h))
  }

  /** And the next write of an owner is its label, with no finalizer to be removed before. */
  predicate Free(k: Key, h: History) {
    Standing(k, h) && (k.scanner == TrivyScanner ==> !Last(h).obj.finalizer)
  }

  function LastCopy(h: History): Copy
    requires Last(h).Present?
  {
    Copy(Latest(h), Last(h).obj)
  }

  /** The pod is on its way to writing to the latest version. */
  predicate OnTheWay(k: Key, h: History, l: Local)
    requires Last(h).Present?
  {
    match l.pc
    case Idle => l.queued
    case Taken => true
    case SummariesCleared => true
    case Cleared => true
    case Owning => true
    case Loading(base) => base.ver == Latest(h)
    case Hydrating(base) => true
    case Storing(c) => c == LastCopy(h)
    case Ready(c) => c == LastCopy(h)
    case Publishing(c, _, _) => c == LastCopy(h)
    case Finalizing(c) => c == LastCopy(h) && !Free(k, h)
    case Labelling(c) => c == LastCopy(h) && Free(k, h)
  }

  /** A pod that has news of a standing report to come or in hand. */
  predicate Visit(k: Key, h: History, l: Local) {
    && Standing(k, h)
    && ((l.pc.Idle? && l.cached < Latest(h)) || (l.cached == Latest(h) && OnTheWay(k, h, l)))
  }

  /** The pod's visit to a report that is labelled for somebody else. */
  predicate Turn(k: Key, h: History, q: Pod, l: Local) {
    Visit(k, h, l) && Last(h).obj.owner != q
  }

  predicate AtWrite(pc: Pc) {
    pc.Finalizing? || pc.Labelling?
  }

  /** The next event of a visit that has not come to a write brings it nearer to there. */
  ghost predicate VisitGoesOn(k: Key, bound: nat, h: History, l: Local, h': History, l': Local) {
    h' == h && Visit(k, h, l') && Eases(bound, h, l, l')
  }

  lemma QueueVisit(k: Key, h: History, l: Local, bound: nat)
    requires Visit(k, h, l) && l.pc.Idle?
    ensures l.cached < Latest(h) ==> VisitGoesOn(k, bound, h, l, h, Delivering(h, l, Latest(h)))
    ensures l.cached == Latest(h) ==> VisitGoesOn(k, bound, h, l, h, Taking(l))
  {
    if l.cached < Latest(h) {
      DeliverEases(bound, h, l, Latest(h));
    }
  }

  lemma ReadVisit(cfg: Config, k: Key, q: Pod, ring: set<Pod>, h: History, l: Local, bound: nat)
    requires Visit(k, h, l) && cfg.Owner(ring, k) == q
    ensures l.pc.Cleared? ==> VisitGoesOn(k, bound, h, l, h, Checking(cfg, k, q, ring, l))
    ensures l.pc.Owning? ==> VisitGoesOn(k, bound, h, l, h, ReadingBase(h, l, false))
    ensures l.pc.Hydrating? ==> VisitGoesOn(k, bound, h, l, h, ReadingApi(h, l))
    ensures l.pc.Storing? ==> VisitGoesOn(k, bound, h, l, h, WritingStore(l))
  {
  }

  lemma LoadVisit(k: Key, h: History, l: Local, bound: nat)
    requires Visit(k, h, l) && l.pc.Loading?
    requires l.stored.Some? ==> Genuine(h, l.stored.value)
    ensures VisitGoesOn(k, bound, h, l, h, LoadingStore(l))
  {
  }

  lemma PublishVisit(k: Key, h: History, l: Local, bound: nat)
    requires Visit(k, h, l)
    ensures l.pc.Taken? ==> VisitGoesOn(k, bound, h, l, h, l.(pc := SummariesCleared))
    ensures l.pc.SummariesCleared? ==> VisitGoesOn(k, bound, h, l, h, l.(pc := Cleared))
    ensures l.pc.Publishing? && l.pc.next < |l.pc.plan| ==>
              VisitGoesOn(k, bound, h, l, h, l.(pc := l.pc.(next := l.pc.next + 1)))
    ensures l.pc.Publishing? ==> VisitGoesOn(k, bound, h, l, h, EndingPublish(k, l))
  {
  }

  lemma StartVisit(cfg: Config, k: Key, h: History, q: Pod, l: Local, order: seq<string>)
    requires Visit(k, h, l) && l.pc.Ready? && IsOrder(order, Counts(l.pc.copy.obj.report).Keys)
    ensures VisitGoesOn(k, PlanBound(cfg, h), h, l, h, Starting(cfg, k, l, order))
  {
    StartEases(cfg, k, q, h, l, order);
  }

  lemma EventOfVisit(cfg: Config, k: Key, q: Pod, ring: set<Pod>, h: History, l: Local, g: Store)
    requires ControlInv(cfg, k, q, h, l) && Visit(k, h, l) && !AtWrite(l.pc)
    requires ring != {} && cfg.Owner(ring, k) == q
    ensures IsEvent(NextEvent(h, l)) && Enabled(cfg, k, q, ring, h, l, NextEvent(h, l))
    ensures var e := Act(cfg, k, q, ring, h, l, g, NextEvent(h, l));
            VisitGoesOn(k, PlanBound(cfg, h), h, l, e.history, e.local)
  {
    WorkIsEnabled(cfg, k, q, ring, h, l);
    var bound := PlanBound(cfg, h);
    match l.pc {
      case Idle => QueueVisit(k, h, l, bound);
      case Ready(c) => StartVisit(cfg, k, h, q, l, NextEvent(h, l).order);
      case Loading(_) => LoadVisit(k, h, l, bound);
      case Cleared => ReadVisit(cfg, k, q, ring, h, l, bound);
      case Owning => ReadVisit(cfg, k, q, ring, h, l, bound);
      case Hydrating(_) => ReadVisit(cfg, k, q, ring, h, l, bound);
      case Storing(_) => ReadVisit(cfg, k, q, ring, h, l, bound);
      case _ => PublishVisit(k, h, l, bound);
    }
  }

  /** At the label a visit ends: a turn with a new version that bears the pod's own label. */
  lemma LabelTurn(k: Key, q: Pod, h: History, l: Local)
    requires Turn(k, h, q, l) && l.pc.Labelling?
    ensures var r := WritingLabel(k, q, h, l, Delivered);
            r.local.pc.Idle? && r.local.cached == l.cached && r.history == h + [Present(Last(h).obj.(owner := q))]
  {
  }

  // ---- A pod's visit as steps of the fleet -----------------------------

  ghost predicate Believes(cfg: Config, s: State, k: Key, p: Pod)
    requires WellFormed(cfg, s)
  {
    p in cfg.pods && cfg.Owner(s.rings[p], k) == p
  }

  ghost predicate HasVisit(cfg: Config, s: State, k: Key, q: Pod)
    requires WellFormed(cfg, s)
  {
    k in cfg.keys && Believes(cfg, s, k, q) && s.rings[q] != {} && Visit(k, HistoryOf(cfg, s, k), LocalOf(cfg, s, k, q))
  }

  ghost function WorkLeft(cfg: Config, s: State, k: Key, q: Pod): nat
    requires WellFormed(cfg, s) && k in cfg.keys && q in cfg.pods
  {
    Effort(PlanBound(cfg, HistoryOf(cfg, s, k)), HistoryOf(cfg, s, k), LocalOf(cfg, s, k, q))
  }

  ghost function NextStep(cfg: Config, s: State, k: Key, q: Pod): Step
    requires WellFormed(cfg, s) && k in cfg.keys && q in cfg.pods
  {
    Exporter(k, q, NextEvent(HistoryOf(cfg, s, k), LocalOf(cfg, s, k, q)))
  }

  /** What a step of one pod on one report leaves alone. */
  ghost predicate OnlyPod(cfg: Config, s: State, s': State, k: Key, q: Pod)
    requires WellFormed(cfg, s) && WellFormed(cfg, s') && k in cfg.keys
  {
    && s'.rings == s.rings
    && forall p | p in cfg.pods && p != q ::
         s'.gauges[p] == s.gauges[p] && LocalOf(cfg, s', k, p) == LocalOf(cfg, s, k, p)
  }

  lemma StepIsOnlyPod(cfg: Config, s: State, k: Key, q: Pod, a: Action)
    requires Allowed(cfg, s, Exporter(k, q, a))
    ensures OnlyPod(cfg, s, Next(cfg, s, Exporter(k, q, a)), k, q)
  {
  }

  lemma VisitMovesOn(cfg: Config, s: State, k: Key, q: Pod)
    requires Inv(cfg, s) && HasVisit(cfg, s, k, q) && !AtWrite(LocalOf(cfg, s, k, q).pc)
    ensures CanHappen(cfg, s, NextStep(cfg, s, k, q))
    ensures var s' := Next(cfg, s, NextStep(cfg, s, k, q));
            && HasVisit(cfg, s', k, q) && OnlyPod(cfg, s, s', k, q)
            && HistoryOf(cfg, s', k) == HistoryOf(cfg, s, k) && WorkLeft(cfg, s', k, q) < WorkLeft(cfg, s, k, q)
  {
    AtPair(cfg, s, k, q);
    EventOfVisit(cfg, k, q, s.rings[q], HistoryOf(cfg, s, k), LocalOf(cfg, s, k, q), s.gauges[q]);
    StepIsOnlyPod(cfg, s, k, q, NextEvent(HistoryOf(cfg, s, k), LocalOf(cfg, s, k, q)));
  }

  lemma LabelEffect(cfg: Config, s: State, k: Key, q: Pod, io: Io)
    requires WellFormed(cfg, s) && k in cfg.keys && q in cfg.pods && LocalOf(cfg, s, k, q).pc.Labelling?
    ensures var step := Exporter(k, q, WriteLabel(io));
            CanHappen(cfg, s, step)
            && var s' := Next(cfg, s, step);
               var r := WritingLabel(k, q, HistoryOf(cfg, s, k), LocalOf(cfg, s, k, q), io);
               && OnlyPod(cfg, s, s', k, q) && s'.gauges[q] == s.gauges[q]
               && HistoryOf(cfg, s', k) == r.history && LocalOf(cfg, s', k, q) == r.local
  {
  }

  // ---- Two believers ---------------------------------------------------

  /** Two pods that both believe, one of them at rest and the other with its turn to come. */
  ghost predicate Contested(cfg: Config, s: State, k: Key, p: Pod, q: Pod)
    requires WellFormed(cfg, s)
  {
    && HasVisit(cfg, s, k, q) && Free(k, HistoryOf(cfg, s, k)) && Last(HistoryOf(cfg, s, k)).obj.owner != q
    && p != q && Believes(cfg, s, k, p) && s.rings[p] != {} && LocalOf(cfg, s, k, p).pc.Idle?
  }

  /** The contest goes on: the pod whose turn it is comes nearer to its label, or it writes it and the other has its
      turn. */
  lemma ContestGoesOn(cfg: Config, s: State, k: Key, p: Pod, q: Pod)
    requires cfg.Valid() && Inv(cfg, s) && Contested(cfg, s, k, p, q) && !LocalOf(cfg, s, k, q).pc.Labelling?
    ensures CanHappen(cfg, s, NextStep(cfg, s, k, q))
    ensures var s' := Next(cfg, s, NextStep(cfg, s, k, q));
            && Contested(cfg, s', k, p, q)
            && HistoryOf(cfg, s', k) == HistoryOf(cfg, s, k) && WorkLeft(cfg, s', k, q) < WorkLeft(cfg, s, k, q)
  {
    VisitMovesOn(cfg, s, k, q);
  }

  lemma ContestTurns(cfg: Config, s: State, k: Key, p: Pod, q: Pod)
    requires cfg.Valid() && Inv(cfg, s) && Contested(cfg, s, k, p, q) && LocalOf(cfg, s, k, q).pc.Labelling?
    ensures CanHappen(cfg, s, Exporter(k, q, WriteLabel(Delivered)))
    ensures var s' := Next(cfg, s, Exporter(k, q, WriteLabel(Delivered)));
            && Contested(cfg, s', k, q, p)
            && HistoryOf(cfg, s', k) == HistoryOf(cfg, s, k) + [Present(Last(HistoryOf(cfg, s, k)).obj.(owner := q))]
  {
    AtPair(cfg, s, k, p);
    LabelEffect(cfg, s, k, q, Delivered);
    LabelTurn(k, q, HistoryOf(cfg, s, k), LocalOf(cfg, s, k, q));
  }

  /** A contested report can be relabelled as often as one likes: for every number there is a run of events with so many
      new versions. */
  lemma {:induction false} ContestNeverEnds(cfg: Config, s: State, k: Key, p: Pod, q: Pod, n: nat)
    returns (steps: seq<Step>)
    requires cfg.Valid() && Inv(cfg, s) && Contested(cfg, s, k, p, q)
    ensures CanRun(cfg, s, steps) && AllEvents(steps) && |steps| >= n
    ensures |HistoryOf(cfg, After(cfg, s, steps), k)| == |HistoryOf(cfg, s, k)| + n
    decreases n, WorkLeft(cfg, s, k, q)
  {
    if n == 0 {
      steps := [];
    } else {
      var step := NextStep(cfg, s, k, q);
      var rest;
      if LocalOf(cfg, s, k, q).pc.Labelling? {
        ContestTurns(cfg, s, k, p, q);
        StepKeeps(cfg, s, step);
        rest := ContestNeverEnds(cfg, Next(cfg, s, step), k, q, p, n - 1);
      } else {
        ContestGoesOn(cfg, s, k, p, q);
        StepKeeps(cfg, s, step);
        rest := ContestNeverEnds(cfg, Next(cfg, s, step), k, p, q, n);
      }
      Prepend(cfg, s, step, rest);
      steps := [step] + rest;
    }
  }

  // ---- A finalizer goes first ------------------------------------------

  /** Two believers, and a Trivy report that has its finalizer still. */
  ghost predicate Unfinalized(cfg: Config, s: State, k: Key, p: Pod, q: Pod)
    requires WellFormed(cfg, s)
  {
    && HasVisit(cfg, s, k, q) && !Free(k, HistoryOf(cfg, s, k))
    && p != q && Believes(cfg, s, k, p) && s.rings[p] != {} && LocalOf(cfg, s, k, p).pc.Idle?
  }

  /** The finalizer is gone, and the pod that removed it is to label the report. */
  ghost predicate JustFreed(cfg: Config, s: State, k: Key, p: Pod, q: Pod)
    requires WellFormed(cfg, s)
  {
    && k in cfg.keys && p != q && Believes(cfg, s, k, p) && Believes(cfg, s, k, q)
    && s.rings[p] != {} && s.rings[q] != {} && Free(k, HistoryOf(cfg, s, k)) && k.scanner == TrivyScanner
    && LocalOf(cfg, s, k, p).pc.Idle? && LocalOf(cfg, s, k, p).cached < Latest(HistoryOf(cfg, s, k))
    && LocalOf(cfg, s, k, q).pc == Labelling(LastCopy(HistoryOf(cfg, s, k)))
    && LocalOf(cfg, s, k, q).cached < Latest(HistoryOf(cfg, s, k))
  }

  lemma FinalizerStepEffect(cfg: Config, s: State, k: Key, q: Pod, io: Io)
    requires WellFormed(cfg, s) && k in cfg.keys && q in cfg.pods && LocalOf(cfg, s, k, q).pc.Finalizing?
    ensures var step := Exporter(k, q, RemoveFinalizer(io));
            CanHappen(cfg, s, step)
            && var s' := Next(cfg, s, step);
               var r := RemovingFinalizer(HistoryOf(cfg, s, k), LocalOf(cfg, s, k, q), io);
               && OnlyPod(cfg, s, s', k, q) && s'.gauges[q] == s.gauges[q]
               && HistoryOf(cfg, s', k) == r.history && LocalOf(cfg, s', k, q) == r.local
  {
  }

  lemma FreeingWrite(k: Key, h: History, l: Local)
    requires Visit(k, h, l) && l.pc.Finalizing?
    ensures var r := RemovingFinalizer(h, l, Delivered);
            && r.history == h + [Present(Last(h).obj.(finalizer := false))] && Free(k, r.history)
            && r.local == l.(pc := Labelling(LastCopy(r.history))) && k.scanner == TrivyScanner
  {
  }

  lemma Freed(cfg: Config, s: State, k: Key, p: Pod, q: Pod)
    requires Inv(cfg, s) && Unfinalized(cfg, s, k, p, q) && LocalOf(cfg, s, k, q).pc.Finalizing?
    ensures CanHappen(cfg, s, NextStep(cfg, s, k, q)) && JustFreed(cfg, Next(cfg, s, NextStep(cfg, s, k, q)), k, p, q)
  {
    AtPair(cfg, s, k, p);
    FinalizerStepEffect(cfg, s, k, q, Delivered);
    FreeingWrite(k, HistoryOf(cfg, s, k), LocalOf(cfg, s, k, q));
  }

  lemma FreedLabel(k: Key, q: Pod, h: History, l: Local)
    requires Free(k, h) && k.scanner == TrivyScanner && l.pc == Labelling(LastCopy(h)) && l.cached < Latest(h)
    ensures var r := WritingLabel(k, q, h, l, Delivered);
            && r.local.pc.Idle? && r.local.cached == l.cached && Latest(r.history) >= Latest(h)
            && Free(k, r.history) && Last(r.history).obj.owner == q
  {
  }

  lemma NewsIsVisit(cfg: Config, s: State, k: Key, p: Pod)
    requires WellFormed(cfg, s) && k in cfg.keys && Believes(cfg, s, k, p) && s.rings[p] != {}
    requires Standing(k, HistoryOf(cfg, s, k)) && LocalOf(cfg, s, k, p).pc.Idle?
    requires LocalOf(cfg, s, k, p).cached < Latest(HistoryOf(cfg, s, k))
    ensures HasVisit(cfg, s, k, p)
  {
  }

  lemma FreedTurns(cfg: Config, s: State, k: Key, p: Pod, q: Pod)
    requires Inv(cfg, s) && JustFreed(cfg, s, k, p, q)
    ensures CanHappen(cfg, s, NextStep(cfg, s, k, q)) && Contested(cfg, Next(cfg, s, NextStep(cfg, s, k, q)), k, q, p)
  {
    LabelEffect(cfg, s, k, q, Delivered);
    FreedLabel(k, q, HistoryOf(cfg, s, k), LocalOf(cfg, s, k, q));
    NewsIsVisit(cfg, Next(cfg, s, NextStep(cfg, s, k, q)), k, p);
  }

  /** So such a report, too, can be relabelled as often as one likes. */
  lemma {:induction false} UnfinalizedNeverEnds(cfg: Config, s: State, k: Key, p: Pod, q: Pod, n: nat)
    returns (steps: seq<Step>)
    requires cfg.Valid() && Inv(cfg, s) && Unfinalized(cfg, s, k, p, q)
    ensures CanRun(cfg, s, steps) && AllEvents(steps) && |steps| >= n
    decreases WorkLeft(cfg, s, k, q)
  {
    var step := NextStep(cfg, s, k, q);
    var rest;
    if LocalOf(cfg, s, k, q).pc.Finalizing? {
      Freed(cfg, s, k, p, q);
      StepKeeps(cfg, s, step);
      rest := FreedNeverEnds(cfg, Next(cfg, s, step), k, p, q, n);
    } else {
      VisitMovesOn(cfg, s, k, q);
      StepKeeps(cfg, s, step);
      rest := UnfinalizedNeverEnds(cfg, Next(cfg, s, step), k, p, q, n);
    }
    Prepend(cfg, s, step, rest);
    steps := [step] + rest;
  }

  lemma FreedNeverEnds(cfg: Config, s: State, k: Key, p: Pod, q: Pod, n: nat) returns (steps: seq<Step>)
    requires cfg.Valid() && Inv(cfg, s) && JustFreed(cfg, s, k, p, q)
    ensures CanRun(cfg, s, steps) && AllEvents(steps) && |steps| >= n
  {
    var step := NextStep(cfg, s, k, q);
    FreedTurns(cfg, s, k, p, q);
    StepKeeps(cfg, s, step);
    var rest := ContestNeverEnds(cfg, Next(cfg, s, step), k, q, p, n);
    Prepend(cfg, s, step, rest);
    steps := [step] + rest;
  }

  // ---- The exact condition ---------------------------------------------

  ghost function SomeBeliever(cfg: Config, s: State, k: Key): Pod
    requires WellFormed(cfg, s)
  {
    if p :| Believes(cfg, s, k, p) then p else ""
  }

  ghost predicate AreRivals(cfg: Config, s: State, k: Key, p: Pod, q: Pod)
    requires WellFormed(cfg, s)
  {
    && k in cfg.keys && Lasting(k, HistoryOf(cfg, s, k))
    && Believes(cfg, s, k, p) && Believes(cfg, s, k, q) && p != q
  }

  /** No report that is there to stay has two pods that each believe to own it. */
  ghost predicate NoRivals(cfg: Config, s: State)
    requires WellFormed(cfg, s)
  {
    forall k, p, q :: !AreRivals(cfg, s, k, p, q)
  }

  lemma NoRivalsIsSole(cfg: Config, s: State)
    requires WellFormed(cfg, s) && NoRivals(cfg, s)
    ensures SoleBelievers(cfg, s, map k | k in cfg.keys :: SomeBeliever(cfg, s, k))
  {
    forall k, p | k in cfg.keys && Lasting(k, HistoryOf(cfg, s, k)) && p in cfg.pods && cfg.Owner(s.rings[p], k) == p
      ensures p == SomeBeliever(cfg, s, k)
    {
      assert Believes(cfg, s, k, p);
      assert !AreRivals(cfg, s, k, p, SomeBeliever(cfg, s, k));
    }
  }

  /** Every pod is about to reconcile every report, as after all timers have fired. */
  ghost predicate AllQueued(cfg: Config, s: State) {
    && WellFormed(cfg, s)
    && (forall p | p in cfg.pods :: s.rings[p] != {})
    && (forall k, p | k in cfg.keys && p in cfg.pods :: LocalOf(cfg, s, k, p).pc.Idle? && LocalOf(cfg, s, k, p).queued)
  }

  ghost predicate EventRunsBounded(cfg: Config, s: State, n: nat) {
    forall steps | CanRun(cfg, s, steps) && AllEvents(steps) :: |steps| <= n
  }

  lemma RivalsContest(cfg: Config, s: State, k: Key, p: Pod, q: Pod)
    requires Inv(cfg, s) && AllQueued(cfg, s) && AreRivals(cfg, s, k, p, q)
    ensures Contested(cfg, s, k, p, q) || Contested(cfg, s, k, q, p) || Unfinalized(cfg, s, k, p, q)
  {
    assert KeyInv(cfg, s, k);
    AtPair(cfg, s, k, p);
    AtPair(cfg, s, k, q);
  }

  /** Once every report is queued everywhere, the events have an end if and only if no report that is there to
      stay has two believers. Reports that are absent, or Trivy reports being deleted, do no harm. */
  lemma EventsEndIffNoRivals(cfg: Config, s: State)
    requires cfg.Valid() && Reachable(cfg, s) && AllQueued(cfg, s)
    ensures (exists n: nat :: EventRunsBounded(cfg, s, n)) <==> NoRivals(cfg, s)
  {
    if NoRivals(cfg, s) {
      NoRivalsIsSole(cfg, s);
      SoleBelieversBound(cfg, s, map k | k in cfg.keys :: SomeBeliever(cfg, s, k));
    } else {
      RivalsOutrunAll(cfg, s);
    }
  }

  lemma RivalsOutrunAll(cfg: Config, s: State)
    requires cfg.Valid() && Reachable(cfg, s) && AllQueued(cfg, s) && !NoRivals(cfg, s)
    ensures forall n: nat :: !EventRunsBounded(cfg, s, n)
  {
    ReachableInv(cfg, s);
    var k, p, q :| AreRivals(cfg, s, k, p, q);
    forall n: nat
      ensures !EventRunsBounded(cfg, s, n)
    {
      RivalsOutrun(cfg, s, k, p, q, n);
    }
  }

  lemma SoleBelieversBound(cfg: Config, s: State, believers: map<Key, Pod>)
    requires cfg.Valid() && Reachable(cfg, s) && SoleBelievers(cfg, s, believers)
    ensures EventRunsBounded(cfg, s, Energy(cfg, s, believers, cfg.keys))
  {
    forall steps | CanRun(cfg, s, steps) && AllEvents(steps)
      ensures |steps| <= Energy(cfg, s, believers, cfg.keys)
    {
      EventRunsEnd(cfg, s, steps, believers);
    }
  }

  lemma RivalsOutrun(cfg: Config, s: State, k: Key, p: Pod, q: Pod, n: nat)
    requires cfg.Valid() && Inv(cfg, s) && AllQueued(cfg, s) && AreRivals(cfg, s, k, p, q)
    ensures !EventRunsBounded(cfg, s, n)
  {
    RivalsContest(cfg, s, k, p, q);
    var steps;
    if Contested(cfg, s, k, p, q) {
      steps := ContestNeverEnds(cfg, s, k, p, q, n + 1);
    } else if Contested(cfg, s, k, q, p) {
      steps := ContestNeverEnds(cfg, s, k, q, p, n + 1);
    } else {
      steps := UnfinalizedNeverEnds(cfg, s, k, p, q, n + 1);
    }
    assert |steps| > n;
  }
}
