/** What the handover protocol guarantees in every reachable state. */
module FleetTheorems {
  import opened Metrics
  import opened Gauges
  import opened Reports
  import opened Fleet
  import opened FleetControl
  import opened FleetGauges
  import opened FleetSafety

  // ---- Handover --------------------------------------------------------

  lemma ShowsOnlyWhenDue(cfg: Config, k: Key, p: Pod, h: History, l: Local, g: Store)
    requires PairInv(cfg, k, p, h, l, g)
    requires View(g, k.String()) != map[] && l.pc.Idle?
    ensures Labelled(h, p) || Pending(h, l) || (l.lost && l.outcome.Exported?)
  {
  }

  /**
   * A pod that shows series of a report and is not just reconciling it is named by the report's owner label,
   * or is going to reconcile it again without its timer, or lost its last label write to an error other than
   * a conflict.
   */
  lemma Handover(cfg: Config, s: State, k: Key, p: Pod)
    requires cfg.Valid() && Reachable(cfg, s) && k in cfg.keys && p in cfg.pods
    requires Exports(cfg, s, k, p) != map[] && LocalOf(cfg, s, k, p).pc.Idle?
    ensures var h, l := HistoryOf(cfg, s, k), LocalOf(cfg, s, k, p);
            Labelled(h, p) || Pending(h, l) || (l.lost && l.outcome.Exported?)
  {
    ReachableInv(cfg, s);
    AtPair(cfg, s, k, p);
    ShowsOnlyWhenDue(cfg, k, p, HistoryOf(cfg, s, k), LocalOf(cfg, s, k, p), s.gauges[p]);
  }

  /** No exporter is forgotten: a pod that shows series and is not just reconciling them has the report on its timer,
      in its queue or up for a retry. */
  lemma NoForgottenExporter(cfg: Config, s: State, k: Key, p: Pod)
    requires cfg.Valid() && Reachable(cfg, s) && k in cfg.keys && p in cfg.pods
    requires Exports(cfg, s, k, p) != map[] && LocalOf(cfg, s, k, p).pc.Idle?
    ensures var l := LocalOf(cfg, s, k, p); l.timer || l.queued || l.retry
  {
    ReachableInv(cfg, s);
    AtPair(cfg, s, k, p);
    ShowsOnlyWithTimer(cfg, k, p, HistoryOf(cfg, s, k), LocalOf(cfg, s, k, p), s.gauges[p]);
  }

  lemma ShowsOnlyWithTimer(cfg: Config, k: Key, p: Pod, h: History, l: Local, g: Store)
    requires PairInv(cfg, k, p, h, l, g)
    requires View(g, k.String()) != map[] && l.pc.Idle?
    ensures l.timer || l.queued || l.retry
  {
  }

  lemma RefusalShows(cfg: Config, k: Key, p: Pod, h: History, l: Local, g: Store)
    requires PairInv(cfg, k, p, h, l, g)
    requires l.pc.Labelling? && l.pc.copy.obj.owner != p && !Pending(h, l)
    ensures var r := WritingLabel(k, p, h, l, Refused);
            r.history == h && r.local.pc.Idle? && View(g, k.String()) != map[] && !Labelled(h, p)
            && !Pending(h, r.local) && r.local.timer && r.local.lost
  {
    RefusalLeaves(cfg, k, p, h, l);
    assert View(g, k.String()) == Expected(cfg.targets, k, l.pc.copy.obj.report) by {
      PairShowsWhole(cfg, k, p, h, l, g);
    }
    ExpectedIsNotEmpty(cfg.targets, k, l.pc.copy.obj.report);
  }

  lemma RefusalLeaves(cfg: Config, k: Key, p: Pod, h: History, l: Local)
    requires ControlInv(cfg, k, p, h, l)
    requires l.pc.Labelling? && l.pc.copy.obj.owner != p && !Pending(h, l)
    ensures var r := WritingLabel(k, p, h, l, Refused);
            r.history == h && r.local.pc.Idle? && !Labelled(h, p)
            && !Pending(h, r.local) && r.local.timer && r.local.lost
  {
  }

  lemma PublishedShowing(h: History, l: Local)
    requires l.pc.Labelling? || l.pc.Finalizing?
    ensures ShowingOf(h, l) == Whole(l.pc.copy.obj.report)
  {
  }

  lemma PairShowsWhole(cfg: Config, k: Key, p: Pod, h: History, l: Local, g: Store)
    requires PairInv(cfg, k, p, h, l, g) && (l.pc.Labelling? || l.pc.Finalizing?)
    ensures View(g, k.String()) == Expected(cfg.targets, k, l.pc.copy.obj.report)
  {
    PublishedShowing(h, l);
    PairOfShowing(cfg, k, p, h, l, g, Whole(l.pc.copy.obj.report));
  }

  lemma PairShowsNothing(cfg: Config, k: Key, p: Pod, h: History, l: Local, g: Store)
    requires PairInv(cfg, k, p, h, l, g) && IsReading(l.pc)
    ensures View(g, k.String()) == map[]
  {
    assert ShowingOf(h, l) == Nothing;
  }

  /** The exception is needed: whenever a pending-free label write is refused without a conflict, the pod goes on
      exporting a report labelled for somebody else, and only its timer will end that. */
  lemma RefusedLabelLeavesStray(cfg: Config, s: State, k: Key, p: Pod)
    requires cfg.Valid() && Reachable(cfg, s) && k in cfg.keys && p in cfg.pods
    requires var l := LocalOf(cfg, s, k, p);
             l.pc.Labelling? && l.pc.copy.obj.owner != p && !Pending(HistoryOf(cfg, s, k), l)
    ensures Allowed(cfg, s, Exporter(k, p, WriteLabel(Refused)))
    ensures var s' := Next(cfg, s, Exporter(k, p, WriteLabel(Refused)));
            var h, l := HistoryOf(cfg, s', k), LocalOf(cfg, s', k, p);
            l.pc.Idle? && Exports(cfg, s', k, p) != map[] && !Labelled(h, p) && !Pending(h, l) && l.timer && l.lost
  {
    ReachableInv(cfg, s);
    AtPair(cfg, s, k, p);
    RefusalShows(cfg, k, p, HistoryOf(cfg, s, k), LocalOf(cfg, s, k, p), s.gauges[p]);
  }

  /** The pod exports a report that is labelled for somebody else, and only its timer will end that. */
  ghost predicate Stray(cfg: Config, s: State, k: Key, p: Pod)
    requires WellFormed(cfg, s) && k in cfg.keys && p in cfg.pods
  {
    StrayPair(k, p, HistoryOf(cfg, s, k), LocalOf(cfg, s, k, p), s.gauges[p])
  }

  ghost predicate StrayPair(k: Key, p: Pod, h: History, l: Local, g: Store) {
    l.pc.Idle? && View(g, k.String()) != map[] && !Labelled(h, p) && !Pending(h, l)
  }

  /** The write that makes a stray exporter: it is refused, needed, and nothing is pending. */
  predicate StrayingWrite(h: History, p: Pod, l: Local, a: Action) {
    a == WriteLabel(Refused) && l.pc.Labelling? && l.pc.copy.obj.owner != p && !Pending(h, l)
  }

  lemma OtherWritesStrayNot(cfg: Config, k: Key, p: Pod, h: History, l: Local, io: Io)
    requires ControlInv(cfg, k, p, h, l) && l.pc.Labelling? && !StrayingWrite(h, p, l, WriteLabel(io))
    ensures var r := WritingLabel(k, p, h, l, io); Labelled(r.history, p) || Pending(r.history, r.local)
  {
  }

  lemma OtherActionsStrayNot(cfg: Config, k: Key, p: Pod, ring: set<Pod>, h: History, l: Local, g: Store, a: Action)
    requires PairInv(cfg, k, p, h, l, g) && Enabled(cfg, k, p, ring, h, l, a) && !a.WriteLabel?
    requires !StrayPair(k, p, h, l, g)
    ensures var e := Act(cfg, k, p, ring, h, l, g, a); !StrayPair(k, p, e.history, e.local, e.gauges)
  {
    var e := Act(cfg, k, p, ring, h, l, g, a);
    if !l.pc.Idle? && e.local.pc.Idle? {
      ExitStage(cfg, k, p, ring, h, l, g, a);
      if IsReading(l.pc) {
        PairShowsNothing(cfg, k, p, h, l, g);
      }
    } else if l.pc.Idle? {
      IdleActionStraysNot(cfg, k, p, ring, h, l, g, a);
    }
  }

  lemma IdleActionStraysNot(cfg: Config, k: Key, p: Pod, ring: set<Pod>, h: History, l: Local, g: Store, a: Action)
    requires Enabled(cfg, k, p, ring, h, l, a) && l.pc.Idle? && ControlInv(cfg, k, p, h, l)
    requires l.outcome.Exported? || View(g, k.String()) == map[] || l.queued || l.retry
    requires !StrayPair(k, p, h, l, g)
    ensures var e := Act(cfg, k, p, ring, h, l, g, a); !StrayPair(k, p, e.history, e.local, e.gauges)
  {
  }

  /** Where a reconcile can end, and that ending touches no gauge. */
  lemma ExitStage(cfg: Config, k: Key, p: Pod, ring: set<Pod>, h: History, l: Local, g: Store, a: Action)
    requires Enabled(cfg, k, p, ring, h, l, a)
    requires !l.pc.Idle? && Act(cfg, k, p, ring, h, l, g, a).local.pc.Idle?
    ensures Act(cfg, k, p, ring, h, l, g, a).gauges == g
    ensures if a.RemoveFinalizer? then l.pc.Finalizing? && Act(cfg, k, p, ring, h, l, g, a).local.retry
            else if a.WriteLabel? then l.pc.Labelling? else IsReading(l.pc)
  {
  }

  lemma StrayingWriteStrays(cfg: Config, k: Key, p: Pod, h: History, l: Local, g: Store)
    requires PairInv(cfg, k, p, h, l, g) && StrayingWrite(h, p, l, WriteLabel(Refused))
    ensures var r := WritingLabel(k, p, h, l, Refused); StrayPair(k, p, r.history, r.local, g)
  {
    RefusalShows(cfg, k, p, h, l, g);
  }

  lemma ActionStraysIff(cfg: Config, k: Key, p: Pod, ring: set<Pod>, h: History, l: Local, g: Store, a: Action)
    requires PairInv(cfg, k, p, h, l, g) && Enabled(cfg, k, p, ring, h, l, a) && !StrayPair(k, p, h, l, g)
    ensures var e := Act(cfg, k, p, ring, h, l, g, a);
            StrayPair(k, p, e.history, e.local, e.gauges) <==> StrayingWrite(h, p, l, a)
  {
    if a.WriteLabel? {
      if StrayingWrite(h, p, l, a) {
        StrayingWriteStrays(cfg, k, p, h, l, g);
      } else {
        OtherWritesStrayNot(cfg, k, p, h, l, a.io);
      }
    } else {
      OtherActionsStrayNot(cfg, k, p, ring, h, l, g, a);
    }
  }

  /** The exact condition: when a pod has published a report and comes to the label, the write makes it a stray exporter
      if and only if the write is refused, the copy in hand bears another label, and nothing is pending. */
  lemma LabelStraysIff(cfg: Config, s: State, k: Key, p: Pod, io: Io)
    requires cfg.Valid() && Reachable(cfg, s) && Allowed(cfg, s, Exporter(k, p, WriteLabel(io)))
    ensures Stray(cfg, Next(cfg, s, Exporter(k, p, WriteLabel(io))), k, p)
       <==> StrayingWrite(HistoryOf(cfg, s, k), p, LocalOf(cfg, s, k, p), WriteLabel(io))
  {
    ReachableInv(cfg, s);
    AtPair(cfg, s, k, p);
    ActionStraysIff(cfg, k, p, s.rings[p], HistoryOf(cfg, s, k), LocalOf(cfg, s, k, p), s.gauges[p], WriteLabel(io));
  }

  lemma OwnStepStraysIff(cfg: Config, s: State, k: Key, p: Pod, a: Action)
    requires Inv(cfg, s) && Allowed(cfg, s, Exporter(k, p, a)) && !Stray(cfg, s, k, p)
    ensures Stray(cfg, Next(cfg, s, Exporter(k, p, a)), k, p)
       <==> StrayingWrite(HistoryOf(cfg, s, k), p, LocalOf(cfg, s, k, p), a)
  {
    AtPair(cfg, s, k, p);
    ActionStraysIff(cfg, k, p, s.rings[p], HistoryOf(cfg, s, k), LocalOf(cfg, s, k, p), s.gauges[p], a);
  }

  lemma OtherPodsStepStraysNot(cfg: Config, s: State, k: Key, p: Pod, q: Pod, a: Action)
    requires Inv(cfg, s) && Allowed(cfg, s, Exporter(k, q, a)) && p in cfg.pods && p != q
    requires !Stray(cfg, s, k, p)
    ensures !Stray(cfg, Next(cfg, s, Exporter(k, q, a)), k, p)
  {
    if HistoryOf(cfg, Next(cfg, s, Exporter(k, q, a)), k) != HistoryOf(cfg, s, k) {
      ExporterMakesNews(cfg, s, k, q, a, p);
    }
  }

  lemma ScannerStraysNot(cfg: Config, s: State, k: Key, p: Pod, step: Step)
    requires Inv(cfg, s) && Allowed(cfg, s, step) && (step.ScannerPut? || step.ScannerDelete?)
    requires k in cfg.keys && p in cfg.pods && !Stray(cfg, s, k, p)
    ensures !Stray(cfg, Next(cfg, s, step), k, p)
  {
    if step.key == k {
      ScannerMakesNews(cfg, s, step, p);
    }
  }

  lemma PodStepStraysNot(cfg: Config, s: State, k: Key, p: Pod, step: Step)
    requires Allowed(cfg, s, step) && (step.RingChange? || step.Restart?)
    requires k in cfg.keys && p in cfg.pods && !Stray(cfg, s, k, p)
    ensures !Stray(cfg, Next(cfg, s, step), k, p)
  {
  }

  /** Steps of other pods and on other reports leave a pod's history and what it shows alone, or make news for it. */
  lemma ForeignStepStraysNot(cfg: Config, s: State, k: Key, p: Pod, step: Step)
    requires cfg.Valid() && Inv(cfg, s) && Allowed(cfg, s, step) && k in cfg.keys && p in cfg.pods
    requires !Stray(cfg, s, k, p) && !(step.Exporter? && step.key == k && step.pod == p)
    ensures !Stray(cfg, Next(cfg, s, step), k, p)
  {
    if step.Exporter? && step.key == k {
      OtherPodsStepStraysNot(cfg, s, k, p, step.pod, step.action);
    } else if step.Exporter? {
      OtherReportStays(cfg, s, k, p, step.key, step.pod, step.action);
    } else if step.ScannerPut? || step.ScannerDelete? {
      ScannerStraysNot(cfg, s, k, p, step);
    } else {
      PodStepStraysNot(cfg, s, k, p, step);
    }
  }

  lemma GaugesAfter(cfg: Config, s: State, k: Key, p: Pod, a: Action)
    requires Allowed(cfg, s, Exporter(k, p, a))
    ensures var s' := Next(cfg, s, Exporter(k, p, a));
            && s'.gauges == s.gauges[p :=
                 Act(cfg, k, p, s.rings[p], HistoryOf(cfg, s, k), LocalOf(cfg, s, k, p), s.gauges[p], a).gauges]
            && s'.rings == s.rings
            && forall k' | k' in cfg.keys && k' != k :: s'.keys[k'] == s.keys[k']
  {
  }

  lemma OtherReportStays(cfg: Config, s: State, k: Key, p: Pod, k': Key, p': Pod, a: Action)
    requires cfg.Valid() && Inv(cfg, s) && Allowed(cfg, s, Exporter(k', p', a))
    requires k in cfg.keys && p in cfg.pods && k' != k
    ensures var s' := Next(cfg, s, Exporter(k', p', a));
            Exports(cfg, s', k, p) == Exports(cfg, s, k, p) && s'.keys[k] == s.keys[k]
  {
    GaugesAfter(cfg, s, k', p', a);
    if p == p' {
      AtPair(cfg, s, k', p');
      ActionIsLocal(cfg, k', p', s.rings[p'], HistoryOf(cfg, s, k'), LocalOf(cfg, s, k', p'), s.gauges[p'], a,
                    k.String());
    }
  }

  /** Nothing else makes strays: in any step of the whole fleet a pod becomes a stray exporter of a report if and only
      if the step is such a write of its own. */
  lemma StrayArisesIff(cfg: Config, s: State, k: Key, p: Pod, step: Step)
    requires cfg.Valid() && Reachable(cfg, s) && Allowed(cfg, s, step) && k in cfg.keys && p in cfg.pods
    requires !Stray(cfg, s, k, p)
    ensures Stray(cfg, Next(cfg, s, step), k, p)
       <==> step == Exporter(k, p, WriteLabel(Refused))
            && StrayingWrite(HistoryOf(cfg, s, k), p, LocalOf(cfg, s, k, p), WriteLabel(Refused))
  {
    ReachableInv(cfg, s);
    if step.Exporter? && step.key == k && step.pod == p {
      OwnStepStraysIff(cfg, s, k, p, step.action);
    } else {
      ForeignStepStraysNot(cfg, s, k, p, step);
    }
  }

  ghost predicate NoRefusedLabels(steps: seq<Step>) {
    forall i | 0 <= i < |steps| && steps[i].Exporter? :: steps[i].action != WriteLabel(Refused)
  }

  /** The states of the runs in which no label write meets an error other than a conflict. */
  ghost predicate ReachableWithoutRefusal(cfg: Config, s: State) {
    WellFormed(cfg, s) && exists steps :: ReachedBy(cfg, s, steps) && NoRefusedLabels(steps)
  }

  ghost predicate NothingLost(cfg: Config, s: State) {
    WellFormed(cfg, s) && forall k, p | k in cfg.keys && p in cfg.pods :: !LocalOf(cfg, s, k, p).lost
  }

  lemma ActionLosesNothing(cfg: Config, k: Key, p: Pod, ring: set<Pod>, h: History, l: Local, g: Store, a: Action)
    requires Enabled(cfg, k, p, ring, h, l, a) && a != WriteLabel(Refused) && !l.lost
    ensures !Act(cfg, k, p, ring, h, l, g, a).local.lost
  {
  }

  lemma ExporterLosesNothing(cfg: Config, s: State, k: Key, p: Pod, a: Action)
    requires NothingLost(cfg, s) && Allowed(cfg, s, Exporter(k, p, a)) && a != WriteLabel(Refused)
    ensures NothingLost(cfg, Next(cfg, s, Exporter(k, p, a)))
  {
    ActionLosesNothing(cfg, k, p, s.rings[p], HistoryOf(cfg, s, k), LocalOf(cfg, s, k, p), s.gauges[p], a);
  }

  lemma StepLosesNothing(cfg: Config, s: State, step: Step)
    requires NothingLost(cfg, s) && Allowed(cfg, s, step)
    requires step.Exporter? ==> step.action != WriteLabel(Refused)
    ensures NothingLost(cfg, Next(cfg, s, step))
  {
    if step.Exporter? {
      ExporterLosesNothing(cfg, s, step.key, step.pod, step.action);
    }
  }

  lemma {:induction false} LosesNothing(cfg: Config, s: State, steps: seq<Step>)
    requires NothingLost(cfg, s) && CanRun(cfg, s, steps) && NoRefusedLabels(steps)
    ensures NothingLost(cfg, After(cfg, s, steps))
    decreases |steps|
  {
    if steps != [] {
      StepLosesNothing(cfg, s, steps[0]);
      assert forall i | 0 <= i < |steps[1..]| :: steps[1..][i] == steps[i + 1];
      LosesNothing(cfg, Next(cfg, s, steps[0]), steps[1..]);
    }
  }

  /** Without such an error the handover needs no exception. */
  lemma HandoverWithoutRefusal(cfg: Config, s: State, k: Key, p: Pod)
    requires cfg.Valid() && ReachableWithoutRefusal(cfg, s) && k in cfg.keys && p in cfg.pods
    requires Exports(cfg, s, k, p) != map[] && LocalOf(cfg, s, k, p).pc.Idle?
    ensures Labelled(HistoryOf(cfg, s, k), p) || Pending(HistoryOf(cfg, s, k), LocalOf(cfg, s, k, p))
  {
    var steps :| ReachedBy(cfg, s, steps) && NoRefusedLabels(steps);
    Handover(cfg, s, k, p);
    LosesNothing(cfg, Init(cfg), steps);
  }

  // ---- Every write is news to every pod --------------------------------

  ghost predicate HasNews(cfg: Config, s: State, k: Key, q: Pod)
    requires WellFormed(cfg, s) && k in cfg.keys && q in cfg.pods
  {
    Behind(HistoryOf(cfg, s, k), LocalOf(cfg, s, k, q))
  }

  lemma WriterStaysBehind(cfg: Config, k: Key, p: Pod, ring: set<Pod>, h: History, l: Local, g: Store, a: Action)
    requires Enabled(cfg, k, p, ring, h, l, a)
    ensures var e := Act(cfg, k, p, ring, h, l, g, a);
            e.history != h ==> e.local.cached == l.cached && |e.history| == |h| + 1
  {
  }

  lemma ExporterMakesNews(cfg: Config, s: State, k: Key, p: Pod, a: Action, q: Pod)
    requires Inv(cfg, s) && Allowed(cfg, s, Exporter(k, p, a)) && q in cfg.pods
    requires HistoryOf(cfg, Next(cfg, s, Exporter(k, p, a)), k) != HistoryOf(cfg, s, k)
    ensures HasNews(cfg, Next(cfg, s, Exporter(k, p, a)), k, q)
  {
    AtPair(cfg, s, k, q);
    WriterStaysBehind(cfg, k, p, s.rings[p], HistoryOf(cfg, s, k), LocalOf(cfg, s, k, p), s.gauges[p], a);
  }

  lemma ScannerMakesNews(cfg: Config, s: State, step: Step, q: Pod)
    requires Inv(cfg, s) && Allowed(cfg, s, step) && (step.ScannerPut? || step.ScannerDelete?) && q in cfg.pods
    ensures HasNews(cfg, Next(cfg, s, step), step.key, q)
  {
    AtPair(cfg, s, step.key, q);
  }

  predicate IsAbout(step: Step, k: Key) {
    (step.Exporter? || step.ScannerPut? || step.ScannerDelete?) && step.key == k
  }

  lemma OthersHaveNoNews(cfg: Config, s: State, step: Step, k: Key)
    requires Allowed(cfg, s, step) && k in cfg.keys && !IsAbout(step, k)
    ensures HistoryOf(cfg, Next(cfg, s, step), k) == HistoryOf(cfg, s, k)
  {
  }

  /** Whoever makes a new version of a report, each pod has it still to hear of, and so will reconcile the report. */
  lemma NewVersionsAreNews(cfg: Config, s: State, step: Step, k: Key, q: Pod)
    requires cfg.Valid() && Reachable(cfg, s) && Allowed(cfg, s, step)
    requires k in cfg.keys && q in cfg.pods
    requires HistoryOf(cfg, Next(cfg, s, step), k) != HistoryOf(cfg, s, k)
    ensures HasNews(cfg, Next(cfg, s, step), k, q)
  {
    ReachableInv(cfg, s);
    if !IsAbout(step, k) {
      OthersHaveNoNews(cfg, s, step, k);
    } else if step.Exporter? {
      ExporterMakesNews(cfg, s, k, step.pod, step.action, q);
    } else {
      ScannerMakesNews(cfg, s, step, q);
    }
  }

  lemma FreeingHistory(p: Pod, h: History, l: Local)
    requires l.shutdown.Some? && l.shutdown.value.obj.owner == p && Accepts(h, l.shutdown.value.ver) && p != ""
    requires Genuine(h, l.shutdown.value)
    ensures var h' := ShuttingDown(p, h, l, Delivered).history;
            h' != h && (Last(h').Present? ==> Last(h').obj.owner == "")
  {
  }

  lemma ShutdownEffect(cfg: Config, s: State, k: Key, p: Pod)
    requires Allowed(cfg, s, Exporter(k, p, ShutdownWrite(Delivered)))
    ensures HistoryOf(cfg, Next(cfg, s, Exporter(k, p, ShutdownWrite(Delivered))), k)
         == ShuttingDown(p, HistoryOf(cfg, s, k), LocalOf(cfg, s, k, p), Delivered).history
  {
  }

  /** Shutting down hands a report on: an accepted write leaves its label empty, with every pod about to look at it. */
  lemma ShutdownHandsOn(cfg: Config, s: State, k: Key, p: Pod, c: Copy, q: Pod)
    requires cfg.Valid() && Reachable(cfg, s) && Allowed(cfg, s, Exporter(k, p, ShutdownWrite(Delivered)))
    requires q in cfg.pods && p != ""
    requires s.keys[k].locals[p].shutdown == Some(c) && c.obj.owner == p && Accepts(s.keys[k].history, c.ver)
    ensures var s' := Next(cfg, s, Exporter(k, p, ShutdownWrite(Delivered)));
            (Last(HistoryOf(cfg, s', k)).Present? ==> Last(HistoryOf(cfg, s', k)).obj.owner == "")
            && HasNews(cfg, s', k, q)
  {
    ReachableInv(cfg, s);
    AtPair(cfg, s, k, p);
    FreeingHistory(p, HistoryOf(cfg, s, k), LocalOf(cfg, s, k, p));
    ShutdownEffect(cfg, s, k, p);
    ExporterMakesNews(cfg, s, k, p, ShutdownWrite(Delivered), q);
  }

  // ---- Mutual exclusion ------------------------------------------------

  /** No reconcile of the report is running or pending anywhere. */
  ghost predicate Settled(cfg: Config, s: State, k: Key)
    requires WellFormed(cfg, s) && k in cfg.keys
  {
    forall p | p in cfg.pods ::
      LocalOf(cfg, s, k, p).pc.Idle? && !Pending(HistoryOf(cfg, s, k), LocalOf(cfg, s, k, p))
  }

  /** Whatever the pods' rings say, a settled report is exported by at most one pod that has not lost a label write. */
  lemma AtMostOneExporter(cfg: Config, s: State, k: Key, p: Pod, q: Pod)
    requires cfg.Valid() && Reachable(cfg, s)
    requires k in cfg.keys && p in cfg.pods && q in cfg.pods && Settled(cfg, s, k)
    requires Exports(cfg, s, k, p) != map[] && Exports(cfg, s, k, q) != map[]
    requires !LocalOf(cfg, s, k, p).lost && !LocalOf(cfg, s, k, q).lost
    ensures p == q
  {
    Handover(cfg, s, k, p);
    Handover(cfg, s, k, q);
  }

  /** And exactly so: two pods both export a settled report if and only if one exports it and the other is a stray
      exporter of it. */
  lemma TwoExportersIffStray(cfg: Config, s: State, k: Key, p: Pod, q: Pod)
    requires cfg.Valid() && Reachable(cfg, s) && k in cfg.keys && p in cfg.pods && q in cfg.pods
    requires p != q && Settled(cfg, s, k)
    ensures Exports(cfg, s, k, p) != map[] && Exports(cfg, s, k, q) != map[]
       <==> (Stray(cfg, s, k, p) && Exports(cfg, s, k, q) != map[])
            || (Stray(cfg, s, k, q) && Exports(cfg, s, k, p) != map[])
  {
    assert !(Labelled(HistoryOf(cfg, s, k), p) && Labelled(HistoryOf(cfg, s, k), q));
  }

  /** So in runs without refused label writes it has at most one exporter. */
  lemma AtMostOneWithoutRefusal(cfg: Config, s: State, k: Key, p: Pod, q: Pod)
    requires cfg.Valid() && ReachableWithoutRefusal(cfg, s)
    requires k in cfg.keys && p in cfg.pods && q in cfg.pods && Settled(cfg, s, k)
    requires Exports(cfg, s, k, p) != map[] && Exports(cfg, s, k, q) != map[]
    ensures p == q
  {
    var steps :| ReachedBy(cfg, s, steps) && NoRefusedLabels(steps);
    LosesNothing(cfg, Init(cfg), steps);
    AtMostOneExporter(cfg, s, k, p, q);
  }

  // ---- Convergence -----------------------------------------------------

  /** The pod found no report when it last looked, or never had to look. */
  predicate FoundNothing(l: Local) {
    l.outcome.Never? || l.outcome.Missing?
  }

  /** Every pod whose last reconcile came to a decision consulted the member set `members` for it. */
  ghost predicate CheckedUnder(cfg: Config, s: State, k: Key, members: set<Pod>)
    requires WellFormed(cfg, s) && k in cfg.keys
  {
    forall p | p in cfg.pods ::
      FoundNothing(LocalOf(cfg, s, k, p)) || LocalOf(cfg, s, k, p).decided == Some(members)
  }

  /** What a pod is to show of a report: the owner the latest version's series, everybody else nothing. */
  ghost function DueFrom(cfg: Config, k: Key, p: Pod, h: History, members: set<Pod>): Store {
    if p == cfg.locate(members, k.namespace + "/" + k.name) && Last(h).Present?
    then Expected(cfg.targets, k, Last(h).obj.report) else map[]
  }

  ghost predicate Converged(cfg: Config, s: State, k: Key, members: set<Pod>)
    requires WellFormed(cfg, s) && k in cfg.keys
  {
    forall p | p in cfg.pods :: Exports(cfg, s, k, p) == DueFrom(cfg, k, p, HistoryOf(cfg, s, k), members)
  }

  function DueShowing(cfg: Config, k: Key, p: Pod, h: History, members: set<Pod>): Showing {
    if p == cfg.Owner(members, k) && Last(h).Present? then Whole(Last(h).obj.report) else Nothing
  }

  lemma ShowsWhatIsDue(cfg: Config, k: Key, p: Pod, h: History, l: Local, members: set<Pod>)
    requires ControlInv(cfg, k, p, h, l) && l.pc.Idle? && !Pending(h, l)
    requires FoundNothing(l) || l.decided == Some(members)
    ensures ShowingOf(h, l) == DueShowing(cfg, k, p, h, members)
  {
  }

  lemma PairConverges(cfg: Config, k: Key, p: Pod, h: History, l: Local, g: Store, members: set<Pod>)
    requires PairInv(cfg, k, p, h, l, g) && l.pc.Idle? && !Pending(h, l)
    requires FoundNothing(l) || l.decided == Some(members)
    ensures View(g, k.String()) == DueFrom(cfg, k, p, h, members)
  {
    ShowsWhatIsDue(cfg, k, p, h, l, members);
    assert ShowInv(cfg, k, h, DueShowing(cfg, k, p, h, members), View(g, k.String()));
  }

  lemma SettledConverges(cfg: Config, s: State, k: Key, members: set<Pod>)
    requires Inv(cfg, s) && k in cfg.keys
    requires Settled(cfg, s, k) && CheckedUnder(cfg, s, k, members)
    ensures Converged(cfg, s, k, members)
  {
    forall p | p in cfg.pods
      ensures Exports(cfg, s, k, p) == DueFrom(cfg, k, p, HistoryOf(cfg, s, k), members)
    {
      AtPair(cfg, s, k, p);
      PairConverges(cfg, k, p, HistoryOf(cfg, s, k), LocalOf(cfg, s, k, p), s.gauges[p], members);
    }
  }

  /** When all decisions about a report were made under one member set and nothing is pending, the picture is right:
      lost label writes, too, are made good by then. */
  lemma Convergence(cfg: Config, s: State, k: Key, members: set<Pod>)
    requires cfg.Valid() && Reachable(cfg, s) && k in cfg.keys
    requires Settled(cfg, s, k) && CheckedUnder(cfg, s, k, members)
    ensures Converged(cfg, s, k, members)
  {
    ReachableInv(cfg, s);
    SettledConverges(cfg, s, k, members);
  }

  /** An existing report then has exactly one exporter, if the ring answers with one of its members and all
      members are running. */
  lemma ExactlyOneExporter(cfg: Config, s: State, k: Key, members: set<Pod>, p: Pod)
    requires cfg.Valid() && WellFormed(cfg, s) && k in cfg.keys && Converged(cfg, s, k, members)
    requires Last(HistoryOf(cfg, s, k)).Present?
    requires cfg.locate(members, k.namespace + "/" + k.name) in members && forall m | m in members :: m in cfg.pods
    ensures var owner := cfg.locate(members, k.namespace + "/" + k.name);
            && Exports(cfg, s, k, owner) != map[]
            && (p in cfg.pods && Exports(cfg, s, k, p) != map[] ==> p == owner)
  {
    ExpectedIsNotEmpty(cfg.targets, k, Last(HistoryOf(cfg, s, k)).obj.report);
  }

  // ---- No mixing of versions -------------------------------------------

  predicate IsReading(pc: Pc) {
    pc.Cleared? || pc.Owning? || pc.Loading? || pc.Hydrating? || pc.Storing? || pc.Ready?
  }

  lemma PairSingle(cfg: Config, k: Key, p: Pod, h: History, l: Local, g: Store)
    requires PairInv(cfg, k, p, h, l, g)
    ensures SingleVersion(cfg, k, h, View(g, k.String()))
  {
    ShowingIsSingle(cfg, k, h, ShowingOf(h, l), View(g, k.String()));
  }

  /** What a pod may show of a report at a stage of its reconcile: at every moment it stems from one version;
      while the pod is reading nothing is shown, and once it has published exactly the expected series are. */
  ghost predicate Unmixed(cfg: Config, k: Key, h: History, pc: Pc, v: Store) {
    && SingleVersion(cfg, k, h, v)
    && (IsReading(pc) ==> v == map[])
    && (pc.Labelling? || pc.Finalizing? ==> v == Expected(cfg.targets, k, pc.copy.obj.report))
  }

  lemma NoMixing(cfg: Config, s: State, k: Key, p: Pod)
    requires cfg.Valid() && Reachable(cfg, s) && k in cfg.keys && p in cfg.pods
    ensures Unmixed(cfg, k, HistoryOf(cfg, s, k), LocalOf(cfg, s, k, p).pc, Exports(cfg, s, k, p))
  {
    ReachableInv(cfg, s);
    AtPair(cfg, s, k, p);
    var h, l, g := HistoryOf(cfg, s, k), LocalOf(cfg, s, k, p), s.gauges[p];
    PairSingle(cfg, k, p, h, l, g);
    if IsReading(l.pc) {
      PairShowsNothing(cfg, k, p, h, l, g);
    }
    if l.pc.Labelling? || l.pc.Finalizing? {
      PairShowsWhole(cfg, k, p, h, l, g);
    }
  }

  /** A reconcile that ends before publishing leaves nothing of the report behind. */
  lemma UnpublishedExitsAreEmpty(cfg: Config, s: State, k: Key, p: Pod, a: Action)
    requires cfg.Valid() && Reachable(cfg, s) && Allowed(cfg, s, Exporter(k, p, a))
    requires a.CheckOwner? || a.ReadBase? || a.ReadApi? || a.ReadFails?
    ensures Exports(cfg, Next(cfg, s, Exporter(k, p, a)), k, p) == map[]
  {
    NoMixing(cfg, s, k, p);
    assert IsReading(LocalOf(cfg, s, k, p).pc);
  }

  lemma ExitShowsIff(cfg: Config, k: Key, p: Pod, ring: set<Pod>, h: History, l: Local, g: Store, a: Action)
    requires PairInv(cfg, k, p, h, l, g) && Enabled(cfg, k, p, ring, h, l, a)
    requires !l.pc.Idle? && Act(cfg, k, p, ring, h, l, g, a).local.pc.Idle?
    ensures View(Act(cfg, k, p, ring, h, l, g, a).gauges, k.String()) != map[] <==> a.RemoveFinalizer? || a.WriteLabel?
  {
    ExitStage(cfg, k, p, ring, h, l, g, a);
    if IsReading(l.pc) {
      PairShowsNothing(cfg, k, p, h, l, g);
    } else {
      PairShowsWhole(cfg, k, p, h, l, g);
      ExpectedIsNotEmpty(cfg.targets, k, l.pc.copy.obj.report);
    }
  }

  /** Which exits leave series: a reconcile that ends shows the report if and only if it ends with the label's write, or
      with the failed removal of a finalizer. */
  lemma ExitsShowIff(cfg: Config, s: State, k: Key, p: Pod, a: Action)
    requires cfg.Valid() && Reachable(cfg, s) && Allowed(cfg, s, Exporter(k, p, a))
    requires !LocalOf(cfg, s, k, p).pc.Idle? && LocalOf(cfg, Next(cfg, s, Exporter(k, p, a)), k, p).pc.Idle?
    ensures Exports(cfg, Next(cfg, s, Exporter(k, p, a)), k, p) != map[] <==> a.RemoveFinalizer? || a.WriteLabel?
  {
    ReachableInv(cfg, s);
    AtPair(cfg, s, k, p);
    ExitShowsIff(cfg, k, p, s.rings[p], HistoryOf(cfg, s, k), LocalOf(cfg, s, k, p), s.gauges[p], a);
  }

  predicate FinalizerStays(h: History, l: Local, io: Io)
    requires l.pc.Finalizing?
  {
    !io.Delivered? || !Accepts(h, l.pc.copy.ver)
  }

  lemma FinalizerEffect(cfg: Config, s: State, k: Key, p: Pod, io: Io)
    requires Allowed(cfg, s, Exporter(k, p, RemoveFinalizer(io))) && LocalOf(cfg, s, k, p).pc.Finalizing?
    ensures LocalOf(cfg, Next(cfg, s, Exporter(k, p, RemoveFinalizer(io))), k, p)
         == RemovingFinalizer(HistoryOf(cfg, s, k), LocalOf(cfg, s, k, p), io).local
  {
  }

  /** When removing a finalizer ends a reconcile: exactly if it is refused, in conflict, or its reply is lost. The
      series are then left for a retry to clear. */
  lemma FinalizerExitIff(cfg: Config, s: State, k: Key, p: Pod, io: Io)
    requires Allowed(cfg, s, Exporter(k, p, RemoveFinalizer(io))) && LocalOf(cfg, s, k, p).pc.Finalizing?
    ensures var l' := LocalOf(cfg, Next(cfg, s, Exporter(k, p, RemoveFinalizer(io))), k, p);
            && (l'.pc.Idle? <==> FinalizerStays(HistoryOf(cfg, s, k), LocalOf(cfg, s, k, p), io))
            && (l'.pc.Idle? ==> l'.retry && l'.outcome == Failed)
  {
    FinalizerEffect(cfg, s, k, p, io);
  }

  /** No failed reconcile is forgotten. */
  lemma FailuresAreRetried(cfg: Config, s: State, k: Key, p: Pod)
    requires cfg.Valid() && Reachable(cfg, s) && k in cfg.keys && p in cfg.pods
    requires LocalOf(cfg, s, k, p).pc.Idle? && LocalOf(cfg, s, k, p).outcome == Failed
    ensures LocalOf(cfg, s, k, p).retry || LocalOf(cfg, s, k, p).queued
  {
    ReachableInv(cfg, s);
    AtPair(cfg, s, k, p);
  }

  // ---- Exporters do not change reports ---------------------------------

  /** The server always holds the report as the scanner last wrote it, although the exporters update objects
      that their caches may have held without the matches. */
  lemma ReportsAreTheScanners(cfg: Config, s: State, k: Key)
    requires cfg.Valid() && Reachable(cfg, s) && k in cfg.keys
    ensures var h := HistoryOf(cfg, s, k);
            Last(h).Present? ==> s.keys[k].scanned == Some(Last(h).obj.report)
  {
    ReachableInv(cfg, s);
    assert KeyInv(cfg, s, k);
  }

  /** Step by step: an exporter's action makes at most one new version, and that differs from the last one
      in the owner label or the finalizer alone. */
  lemma ExportersOnlyLabel(cfg: Config, s: State, k: Key, p: Pod, a: Action)
    requires cfg.Valid() && Reachable(cfg, s) && Allowed(cfg, s, Exporter(k, p, a))
    ensures HistoryStep(HistoryOf(cfg, s, k), HistoryOf(cfg, Next(cfg, s, Exporter(k, p, a)), k))
  {
    ReachableInv(cfg, s);
    AtPair(cfg, s, k, p);
    ActionKeeps(cfg, k, p, s.rings[p], HistoryOf(cfg, s, k), LocalOf(cfg, s, k, p), s.gauges[p], a);
  }

  /** The only writes: a pod whose ring named it the owner takes the finalizer away, or labels a report that bears
      another label; a pod that shuts down empties its own label. */
  ghost predicate DueWrite(cfg: Config, k: Key, p: Pod, h: History, l: Local, a: Action) {
    && Last(h).Present?
    && (|| (a.RemoveFinalizer? && SaidYes(cfg, k, p, l) && Last(h).obj.finalizer)
        || (a.WriteLabel? && SaidYes(cfg, k, p, l) && Last(h).obj.owner != p)
        || (a.ShutdownWrite? && Last(h).obj.owner == p))
  }

  lemma WritesAreDue(cfg: Config, k: Key, p: Pod, ring: set<Pod>, h: History, l: Local, g: Store, a: Action)
    requires ControlInv(cfg, k, p, h, l) && Enabled(cfg, k, p, ring, h, l, a)
    ensures Act(cfg, k, p, ring, h, l, g, a).history != h ==> DueWrite(cfg, k, p, h, l, a)
  {
  }

  lemma OnlyDueWrites(cfg: Config, s: State, k: Key, p: Pod, a: Action)
    requires cfg.Valid() && Reachable(cfg, s) && Allowed(cfg, s, Exporter(k, p, a))
    requires HistoryOf(cfg, Next(cfg, s, Exporter(k, p, a)), k) != HistoryOf(cfg, s, k)
    ensures DueWrite(cfg, k, p, HistoryOf(cfg, s, k), LocalOf(cfg, s, k, p), a)
  {
    ReachableInv(cfg, s);
    AtPair(cfg, s, k, p);
    WritesAreDue(cfg, k, p, s.rings[p], HistoryOf(cfg, s, k), LocalOf(cfg, s, k, p), s.gauges[p], a);
  }

  /** An object written back as a stripping cache shows it would lose its matches. */
  lemma StrippedWriteWouldLose(h: History, p: Pod)
    requires Last(h).Present? && Last(h).obj.report.Kubescape? && Last(h).obj.report.matches != []
    requires !Last(h).obj.deleting
    ensures var h' := Updated(h, Strip(Last(h).obj).(owner := p));
            Last(h').Present? && Last(h').obj.report != Last(h).obj.report
  {
    assert Strip(Last(h).obj).report.matches == [];
  }
}
