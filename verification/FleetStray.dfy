/** That the exceptions do occur: runs into a stray exporter and into a contest, from the very start of a fleet. */
module FleetStray {
  import opened Metrics
  import opened Gauges
  import opened Reports
  import opened Fleet
  import opened FleetControl
  import opened FleetGauges
  import opened FleetSafety
  import opened FleetTheorems
  import opened FleetQuiescence
  import opened FleetConvergence
  import opened FleetLivelock

  // ---- From a turn to a stray ------------------------------------------

  /** Only a failed read or a failed update of a finalizer calls for a retry. */
  lemma OnlyFailuresRetry(cfg: Config, k: Key, q: Pod, ring: set<Pod>, h: History, l: Local, g: Store, a: Action)
    requires Enabled(cfg, k, q, ring, h, l, a)
    requires !l.retry && !a.ReadFails? && !a.RemoveFinalizer? && !a.WriteLabel? && !a.ShutdownWrite?
    ensures var e := Act(cfg, k, q, ring, h, l, g, a); !e.local.retry && e.history == h
  {
  }

  lemma VisitIsNoWrite(k: Key, h: History, l: Local)
    requires Visit(k, h, l) && !AtWrite(l.pc)
    ensures var a := NextEvent(h, l); !a.ReadFails? && !a.RemoveFinalizer? && !a.WriteLabel? && !a.ShutdownWrite?
  {
  }

  /** A pod that has its turn at a report which is labelled for another, while its own ring names itself. */
  ghost predicate HasTurn(cfg: Config, s: State, k: Key, q: Pod)
    requires WellFormed(cfg, s)
  {
    && HasVisit(cfg, s, k, q) && Free(k, HistoryOf(cfg, s, k)) && Last(HistoryOf(cfg, s, k)).obj.owner != q
    && !LocalOf(cfg, s, k, q).retry
  }

  lemma NoRetryOnVisit(cfg: Config, s: State, k: Key, q: Pod)
    requires Inv(cfg, s) && HasVisit(cfg, s, k, q) && !AtWrite(LocalOf(cfg, s, k, q).pc)
    requires !LocalOf(cfg, s, k, q).retry
    ensures CanHappen(cfg, s, NextStep(cfg, s, k, q))
    ensures !LocalOf(cfg, Next(cfg, s, NextStep(cfg, s, k, q)), k, q).retry
  {
    var h, l := HistoryOf(cfg, s, k), LocalOf(cfg, s, k, q);
    VisitMovesOn(cfg, s, k, q);
    VisitIsNoWrite(k, h, l);
    OnlyFailuresRetry(cfg, k, q, s.rings[q], h, l, s.gauges[q], NextEvent(h, l));
  }

  lemma RefusedTurn(cfg: Config, k: Key, q: Pod, h: History, l: Local, bound: nat)
    requires ControlInv(cfg, k, q, h, l) && Turn(k, h, q, l) && l.pc.Labelling? && !l.retry
    ensures var r := WritingLabel(k, q, h, l, Refused);
            r.history == h && !r.local.retry && Eases(bound, h, l, r.local) && (l.queued ==> Turn(k, h, q, r.local))
    ensures !l.queued ==> !Pending(h, l) && l.pc.copy.obj.owner != q
  {
  }

  lemma RefusalMovesOn(cfg: Config, s: State, k: Key, q: Pod)
    requires Inv(cfg, s) && HasTurn(cfg, s, k, q) && LocalOf(cfg, s, k, q).pc.Labelling?
    ensures var step := Exporter(k, q, WriteLabel(Refused));
            CanHappen(cfg, s, step)
            && var s' := Next(cfg, s, step);
               && OnlyPod(cfg, s, s', k, q) && HistoryOf(cfg, s', k) == HistoryOf(cfg, s, k)
               && (Stray(cfg, s', k, q) || (HasTurn(cfg, s', k, q) && WorkLeft(cfg, s', k, q) < WorkLeft(cfg, s, k, q)))
  {
    var h, l := HistoryOf(cfg, s, k), LocalOf(cfg, s, k, q);
    LabelEffect(cfg, s, k, q, Refused);
    AtPair(cfg, s, k, q);
    RefusedTurn(cfg, k, q, h, l, PlanBound(cfg, h));
    if !l.queued {
      RefusalShows(cfg, k, q, h, l, s.gauges[q]);
    }
  }

  /** The next step on the way to becoming a stray exporter. */
  ghost function StrayStep(cfg: Config, s: State, k: Key, q: Pod): Step
    requires WellFormed(cfg, s) && k in cfg.keys && q in cfg.pods
  {
    if LocalOf(cfg, s, k, q).pc.Labelling? then Exporter(k, q, WriteLabel(Refused)) else NextStep(cfg, s, k, q)
  }

  lemma StrayStepMovesOn(cfg: Config, s: State, k: Key, q: Pod)
    requires Inv(cfg, s) && HasTurn(cfg, s, k, q)
    ensures CanHappen(cfg, s, StrayStep(cfg, s, k, q))
    ensures var s' := Next(cfg, s, StrayStep(cfg, s, k, q));
            && OnlyPod(cfg, s, s', k, q) && HistoryOf(cfg, s', k) == HistoryOf(cfg, s, k)
            && (Stray(cfg, s', k, q) || (HasTurn(cfg, s', k, q) && WorkLeft(cfg, s', k, q) < WorkLeft(cfg, s, k, q)))
  {
    if LocalOf(cfg, s, k, q).pc.Labelling? {
      RefusalMovesOn(cfg, s, k, q);
    } else {
      VisitMovesOn(cfg, s, k, q);
      NoRetryOnVisit(cfg, s, k, q);
    }
  }

  lemma {:induction false} TurnToStray(cfg: Config, s: State, k: Key, q: Pod) returns (steps: seq<Step>)
    requires cfg.Valid() && Inv(cfg, s) && HasTurn(cfg, s, k, q)
    ensures CanRun(cfg, s, steps) && AllEvents(steps) && Stray(cfg, After(cfg, s, steps), k, q)
    decreases WorkLeft(cfg, s, k, q)
  {
    var step := StrayStep(cfg, s, k, q);
    StrayStepMovesOn(cfg, s, k, q);
    StepKeeps(cfg, s, step);
    var s', rest := Next(cfg, s, step), [];
    if !Stray(cfg, s', k, q) {
      rest := TurnToStray(cfg, s', k, q);
    }
    Prepend(cfg, s, step, rest);
    steps := [step] + rest;
  }

  // ---- The timer ends it -----------------------------------------------

  /** The steps up to the clearing of both vectors, and what they make of the pod's stage. */
  function Clearing(l: Local): Action {
    match l.pc
    case Idle => if l.queued then Take else TimerFires
    case Taken => ClearSummaries
    case _ => ClearDetails
  }

  predicate MayClear(l: Local) {
    (l.pc.Idle? && (l.queued || l.timer)) || l.pc.Taken? || l.pc.SummariesCleared?
  }

  function ToClearing(l: Local): nat {
    if l.pc.Idle? then (if l.queued then 3 else 4) else if l.pc.Taken? then 2 else 1
  }

  lemma ClearingGoesOn(cfg: Config, s: State, k: Key, p: Pod)
    requires WellFormed(cfg, s) && k in cfg.keys && p in cfg.pods
    requires MayClear(LocalOf(cfg, s, k, p))
    ensures var l := LocalOf(cfg, s, k, p);
            var step := Exporter(k, p, Clearing(l));
            Allowed(cfg, s, step)
            && var l' := LocalOf(cfg, Next(cfg, s, step), k, p);
               if ToClearing(l) == 1 then l'.pc.Cleared? else MayClear(l') && ToClearing(l') == ToClearing(l) - 1
  {
  }

  lemma ClearedShowsNothing(cfg: Config, s: State, k: Key, p: Pod)
    requires Inv(cfg, s) && k in cfg.keys && p in cfg.pods && LocalOf(cfg, s, k, p).pc.Cleared?
    ensures Exports(cfg, s, k, p) == map[]
  {
    AtPair(cfg, s, k, p);
    PairShowsNothing(cfg, k, p, HistoryOf(cfg, s, k), LocalOf(cfg, s, k, p), s.gauges[p]);
  }

  predicate OwnSteps(steps: seq<Step>, k: Key, p: Pod) {
    forall i | 0 <= i < |steps| :: steps[i].Exporter? && steps[i].key == k && steps[i].pod == p
  }

  lemma {:induction false} ClearingRun(cfg: Config, s: State, k: Key, p: Pod) returns (steps: seq<Step>)
    requires cfg.Valid() && Inv(cfg, s) && k in cfg.keys && p in cfg.pods
    requires MayClear(LocalOf(cfg, s, k, p))
    ensures CanRun(cfg, s, steps) && Exports(cfg, After(cfg, s, steps), k, p) == map[]
    ensures |steps| == ToClearing(LocalOf(cfg, s, k, p))
    ensures OwnSteps(steps, k, p) && steps[0].action == Clearing(LocalOf(cfg, s, k, p))
    decreases ToClearing(LocalOf(cfg, s, k, p))
  {
    var step := Exporter(k, p, Clearing(LocalOf(cfg, s, k, p)));
    ClearingGoesOn(cfg, s, k, p);
    StepKeeps(cfg, s, step);
    var s', rest := Next(cfg, s, step), [];
    if ToClearing(LocalOf(cfg, s, k, p)) == 1 {
      ClearedShowsNothing(cfg, s', k, p);
    } else {
      rest := ClearingRun(cfg, s', k, p);
    }
    FirstStep(cfg, s, step, rest);
    OwnMore(step, rest, k, p);
    steps := [step] + rest;
  }

  lemma OwnMore(step: Step, rest: seq<Step>, k: Key, p: Pod)
    requires OwnSteps(rest, k, p) && step.Exporter? && step.key == k && step.pod == p
    ensures OwnSteps([step] + rest, k, p)
  {
  }

  /** A stray exporter has its timer running, and four steps of its own after that fires, firing included, its series
      are gone: so it lasts until its next visit. */
  lemma TimerEndsStray(cfg: Config, s: State, k: Key, p: Pod) returns (steps: seq<Step>)
    requires cfg.Valid() && Reachable(cfg, s) && k in cfg.keys && p in cfg.pods && Stray(cfg, s, k, p)
    ensures LocalOf(cfg, s, k, p).timer
    ensures CanRun(cfg, s, steps) && Exports(cfg, After(cfg, s, steps), k, p) == map[] && |steps| == 4
    ensures OwnSteps(steps, k, p) && steps[0].action == TimerFires
  {
    NoForgottenExporter(cfg, s, k, p);
    ReachableInv(cfg, s);
    steps := ClearingRun(cfg, s, k, p);
  }

  // ---- From the start --------------------------------------------------

  /** A report as a scanner creates it. */
  predicate IsNew(o: Object, k: Key) {
    o.report.Of(k.scanner) && !o.deleting && !o.finalizer && o.owner == ""
  }

  lemma RingSet(cfg: Config, s: State, p: Pod, members: set<Pod>)
    requires WellFormed(cfg, s) && p in cfg.pods
    ensures Allowed(cfg, s, RingChange(p, members))
    ensures Next(cfg, s, RingChange(p, members)) == s.(rings := s.rings[p := members])
  {
  }

  lemma ReportCreated(cfg: Config, s: State, k: Key, o: Object)
    requires WellFormed(cfg, s) && s.keys == Init(cfg).keys && k in cfg.keys
    requires o.report.Of(k.scanner) && !o.deleting
    ensures Allowed(cfg, s, ScannerPut(k, o))
    ensures var s' := Next(cfg, s, ScannerPut(k, o));
            s'.rings == s.rings && HistoryOf(cfg, s', k) == [Absent, Present(o)]
            && forall p | p in cfg.pods :: LocalOf(cfg, s', k, p) == FRESH_LOCAL
  {
  }

  lemma NewReportTurn(cfg: Config, s: State, k: Key, p: Pod, o: Object)
    requires WellFormed(cfg, s) && k in cfg.keys && p in cfg.pods && p != "" && IsNew(o, k)
    requires HistoryOf(cfg, s, k) == [Absent, Present(o)] && LocalOf(cfg, s, k, p) == FRESH_LOCAL
    requires s.rings[p] != {} && cfg.Owner(s.rings[p], k) == p
    ensures HasTurn(cfg, s, k, p)
  {
  }

  /** The handover's exception occurs: every pod that owns a new report by its own ring can become
      its stray exporter. */
  lemma StrayFromStart(cfg: Config, k: Key, p: Pod, members: set<Pod>, o: Object) returns (steps: seq<Step>)
    requires cfg.Valid() && k in cfg.keys && p in cfg.pods && p != "" && IsNew(o, k)
    requires members != {} && cfg.Owner(members, k) == p
    ensures CanRun(cfg, Init(cfg), [RingChange(p, members)] + ([ScannerPut(k, o)] + steps)) && AllEvents(steps)
    ensures Stray(cfg, After(cfg, Init(cfg), [RingChange(p, members)] + ([ScannerPut(k, o)] + steps)), k, p)
  {
    var ringed, created := RingChange(p, members), ScannerPut(k, o);
    InitHolds(cfg);
    RingSet(cfg, Init(cfg), p, members);
    StepKeeps(cfg, Init(cfg), ringed);
    var s1 := Next(cfg, Init(cfg), ringed);
    ReportCreated(cfg, s1, k, o);
    StepKeeps(cfg, s1, created);
    var s2 := Next(cfg, s1, created);
    NewReportTurn(cfg, s2, k, p, o);
    steps := TurnToStray(cfg, s2, k, p);
    FirstStep(cfg, s1, created, steps);
    FirstStep(cfg, Init(cfg), ringed, [created] + steps);
  }

  /** A fleet in which two pods' rings name each of them, then a report is created, and then `steps` happen. */
  function Rivalry(k: Key, p: Pod, q: Pod, mine: set<Pod>, yours: set<Pod>, o: Object, steps: seq<Step>): seq<Step> {
    [RingChange(p, mine)] + ([RingChange(q, yours)] + ([ScannerPut(k, o)] + steps))
  }

  ghost predicate Rivals(cfg: Config, k: Key, p: Pod, q: Pod, mine: set<Pod>, yours: set<Pod>, o: Object) {
    && cfg.Valid() && k in cfg.keys && p in cfg.pods && q in cfg.pods && p != q && q != "" && IsNew(o, k)
    && mine != {} && cfg.Owner(mine, k) == p && yours != {} && cfg.Owner(yours, k) == q
  }

  ghost predicate RivalsMet(cfg: Config, s: State, k: Key, p: Pod, q: Pod)
    requires WellFormed(cfg, s)
  {
    && Inv(cfg, s) && HasTurn(cfg, s, k, q) && Contested(cfg, s, k, p, q)
    && !LocalOf(cfg, s, k, p).retry && |HistoryOf(cfg, s, k)| == 2
  }

  lemma RingsSet(cfg: Config, k: Key, p: Pod, q: Pod, mine: set<Pod>, yours: set<Pod>, o: Object) returns (s: State)
    requires Rivals(cfg, k, p, q, mine, yours, o)
    ensures Allowed(cfg, Init(cfg), RingChange(p, mine))
    ensures var s1 := Next(cfg, Init(cfg), RingChange(p, mine));
            Allowed(cfg, s1, RingChange(q, yours)) && s == Next(cfg, s1, RingChange(q, yours))
    ensures Inv(cfg, s) && s.keys == Init(cfg).keys && s.rings[p] == mine && s.rings[q] == yours
  {
    InitHolds(cfg);
    RingSet(cfg, Init(cfg), p, mine);
    StepKeeps(cfg, Init(cfg), RingChange(p, mine));
    var s1 := Next(cfg, Init(cfg), RingChange(p, mine));
    RingSet(cfg, s1, q, yours);
    StepKeeps(cfg, s1, RingChange(q, yours));
    s := Next(cfg, s1, RingChange(q, yours));
  }

  lemma RivalsStand(cfg: Config, s: State, k: Key, p: Pod, q: Pod)
    requires Inv(cfg, s) && k in cfg.keys && p in cfg.pods && p != q && HasTurn(cfg, s, k, q)
    requires s.rings[p] != {} && cfg.Owner(s.rings[p], k) == p
    requires LocalOf(cfg, s, k, p) == FRESH_LOCAL && |HistoryOf(cfg, s, k)| == 2
    ensures RivalsMet(cfg, s, k, p, q)
  {
  }

  lemma RivalsMeet(cfg: Config, s: State, k: Key, p: Pod, q: Pod, mine: set<Pod>, yours: set<Pod>, o: Object)
    requires Rivals(cfg, k, p, q, mine, yours, o)
    requires Inv(cfg, s) && s.keys == Init(cfg).keys && s.rings[p] == mine && s.rings[q] == yours
    ensures Allowed(cfg, s, ScannerPut(k, o)) && RivalsMet(cfg, Next(cfg, s, ScannerPut(k, o)), k, p, q)
  {
    ReportCreated(cfg, s, k, o);
    StepKeeps(cfg, s, ScannerPut(k, o));
    NewReportTurn(cfg, Next(cfg, s, ScannerPut(k, o)), k, q, o);
    RivalsStand(cfg, Next(cfg, s, ScannerPut(k, o)), k, p, q);
  }

  /** Whatever can happen once the rivals have met, can happen from the start. */
  lemma FromRivalry(cfg: Config, s2: State, k: Key, p: Pod, q: Pod, mine: set<Pod>, yours: set<Pod>, o: Object,
                    steps: seq<Step>)
    requires Allowed(cfg, Init(cfg), RingChange(p, mine))
    requires var s1 := Next(cfg, Init(cfg), RingChange(p, mine));
             Allowed(cfg, s1, RingChange(q, yours)) && s2 == Next(cfg, s1, RingChange(q, yours))
    requires Allowed(cfg, s2, ScannerPut(k, o)) && CanRun(cfg, Next(cfg, s2, ScannerPut(k, o)), steps)
    ensures CanRun(cfg, Init(cfg), Rivalry(k, p, q, mine, yours, o, steps))
    ensures After(cfg, Init(cfg), Rivalry(k, p, q, mine, yours, o, steps))
         == After(cfg, Next(cfg, s2, ScannerPut(k, o)), steps)
  {
    FirstStep(cfg, s2, ScannerPut(k, o), steps);
    FirstStep(cfg, Next(cfg, Init(cfg), RingChange(p, mine)), RingChange(q, yours), [ScannerPut(k, o)] + steps);
    FirstStep(cfg, Init(cfg), RingChange(p, mine), [RingChange(q, yours)] + ([ScannerPut(k, o)] + steps));
  }

  /** So does the contest: two pods whose rings give a new report to either of them relabel it as often as one likes. */
  lemma ContestFromStart(cfg: Config, k: Key, p: Pod, q: Pod, mine: set<Pod>, yours: set<Pod>, o: Object, n: nat)
    returns (steps: seq<Step>)
    requires Rivals(cfg, k, p, q, mine, yours, o)
    ensures CanRun(cfg, Init(cfg), Rivalry(k, p, q, mine, yours, o, steps)) && AllEvents(steps)
    ensures |HistoryOf(cfg, After(cfg, Init(cfg), Rivalry(k, p, q, mine, yours, o, steps)), k)| == 2 + n
  {
    var s := RingsSet(cfg, k, p, q, mine, yours, o);
    RivalsMeet(cfg, s, k, p, q, mine, yours, o);
    steps := ContestNeverEnds(cfg, Next(cfg, s, ScannerPut(k, o)), k, p, q, n);
    FromRivalry(cfg, s, k, p, q, mine, yours, o, steps);
  }

  // ---- An exit that leaves series --------------------------------------

  /** The pod's last reconcile failed with the report's series published. */
  ghost predicate FailedShowing(cfg: Config, s: State, k: Key, p: Pod)
    requires WellFormed(cfg, s) && k in cfg.keys && p in cfg.pods
  {
    LocalOf(cfg, s, k, p).pc.Idle? && LocalOf(cfg, s, k, p).outcome == Failed && Exports(cfg, s, k, p) != map[]
  }

  lemma RefusedFinalizerShows(cfg: Config, s: State, k: Key, p: Pod)
    requires Inv(cfg, s) && k in cfg.keys && p in cfg.pods && LocalOf(cfg, s, k, p).pc.Finalizing?
    ensures CanHappen(cfg, s, Exporter(k, p, RemoveFinalizer(Refused)))
    ensures FailedShowing(cfg, Next(cfg, s, Exporter(k, p, RemoveFinalizer(Refused))), k, p)
  {
    var h, l := HistoryOf(cfg, s, k), LocalOf(cfg, s, k, p);
    AtPair(cfg, s, k, p);
    FinalizerStepEffect(cfg, s, k, p, Refused);
    PairShowsWhole(cfg, k, p, h, l, s.gauges[p]);
    ExpectedIsNotEmpty(cfg.targets, k, l.pc.copy.obj.report);
  }

  lemma {:induction false} FailedRun(cfg: Config, s: State, k: Key, p: Pod) returns (steps: seq<Step>)
    requires cfg.Valid() && Inv(cfg, s) && HasVisit(cfg, s, k, p) && !Free(k, HistoryOf(cfg, s, k))
    ensures CanRun(cfg, s, steps) && AllEvents(steps) && FailedShowing(cfg, After(cfg, s, steps), k, p)
    decreases WorkLeft(cfg, s, k, p)
  {
    var step, rest;
    if LocalOf(cfg, s, k, p).pc.Finalizing? {
      step, rest := Exporter(k, p, RemoveFinalizer(Refused)), [];
      RefusedFinalizerShows(cfg, s, k, p);
    } else {
      step := NextStep(cfg, s, k, p);
      VisitMovesOn(cfg, s, k, p);
      StepKeeps(cfg, s, step);
      rest := FailedRun(cfg, Next(cfg, s, step), k, p);
    }
    Prepend(cfg, s, step, rest);
    steps := [step] + rest;
  }

  /** A Trivy report as its scanner creates it with the finalizer. */
  predicate IsFinalized(o: Object, k: Key) {
    k.scanner == TrivyScanner && o.report.Of(k.scanner) && !o.deleting && o.finalizer
  }

  lemma FinalizedVisit(cfg: Config, s: State, k: Key, p: Pod, o: Object)
    requires WellFormed(cfg, s) && k in cfg.keys && p in cfg.pods && IsFinalized(o, k)
    requires HistoryOf(cfg, s, k) == [Absent, Present(o)] && LocalOf(cfg, s, k, p) == FRESH_LOCAL
    requires s.rings[p] != {} && cfg.Owner(s.rings[p], k) == p
    ensures HasVisit(cfg, s, k, p) && !Free(k, HistoryOf(cfg, s, k))
  {
  }

  /** The exit that leaves series is taken: from an empty fleet, every pod whose ring gives it a new Trivy report with a
      finalizer can fail in removing that. */
  lemma FailedExitFromStart(cfg: Config, k: Key, p: Pod, members: set<Pod>, o: Object) returns (steps: seq<Step>)
    requires cfg.Valid() && k in cfg.keys && p in cfg.pods && IsFinalized(o, k)
    requires members != {} && cfg.Owner(members, k) == p
    ensures CanRun(cfg, Init(cfg), [RingChange(p, members)] + ([ScannerPut(k, o)] + steps)) && AllEvents(steps)
    ensures FailedShowing(cfg, After(cfg, Init(cfg), [RingChange(p, members)] + ([ScannerPut(k, o)] + steps)), k, p)
  {
    var ringed, created := RingChange(p, members), ScannerPut(k, o);
    InitHolds(cfg);
    RingSet(cfg, Init(cfg), p, members);
    StepKeeps(cfg, Init(cfg), ringed);
    var s1 := Next(cfg, Init(cfg), ringed);
    ReportCreated(cfg, s1, k, o);
    StepKeeps(cfg, s1, created);
    FinalizedVisit(cfg, Next(cfg, s1, created), k, p, o);
    steps := FailedRun(cfg, Next(cfg, s1, created), k, p);
    FirstStep(cfg, s1, created, steps);
    FirstStep(cfg, Init(cfg), ringed, [created] + steps);
  }

  // ---- Two exporters at rest -------------------------------------------

  /** One pod is a stray exporter, the other exports with nothing pending. */
  ghost predicate BothExport(cfg: Config, s: State, k: Key, p: Pod, q: Pod)
    requires WellFormed(cfg, s) && k in cfg.keys && p in cfg.pods && q in cfg.pods
  {
    && Stray(cfg, s, k, p)
    && LocalOf(cfg, s, k, q).pc.Idle? && !Pending(HistoryOf(cfg, s, k), LocalOf(cfg, s, k, q))
    && Exports(cfg, s, k, q) != map[]
  }

  /** A pod comes home to a report that bears its label already. */
  ghost predicate ComesHome(cfg: Config, s: State, k: Key, q: Pod)
    requires WellFormed(cfg, s)
  {
    && HasVisit(cfg, s, k, q) && Free(k, HistoryOf(cfg, s, k)) && Last(HistoryOf(cfg, s, k)).obj.owner == q
    && !LocalOf(cfg, s, k, q).retry
  }

  lemma HomeLabel(cfg: Config, k: Key, q: Pod, h: History, l: Local, bound: nat)
    requires ControlInv(cfg, k, q, h, l) && Visit(k, h, l) && Last(h).obj.owner == q && l.pc.Labelling? && !l.retry
    ensures var r := WritingLabel(k, q, h, l, Delivered);
            r.history == h && !r.local.retry && Eases(bound, h, l, r.local) && r.local.pc.Idle?
            && if l.queued then Visit(k, h, r.local) else !Pending(h, r.local)
  {
  }

  ghost predicate NearerHome(cfg: Config, s: State, s': State, k: Key, p: Pod, q: Pod)
    requires WellFormed(cfg, s) && WellFormed(cfg, s') && k in cfg.keys && p in cfg.pods && q in cfg.pods
  {
    && Stray(cfg, s', k, p)
    && (BothExport(cfg, s', k, p, q) || (ComesHome(cfg, s', k, q) && WorkLeft(cfg, s', k, q) < WorkLeft(cfg, s, k, q)))
  }

  lemma HomeLabelStep(cfg: Config, s: State, k: Key, p: Pod, q: Pod)
    requires Inv(cfg, s) && ComesHome(cfg, s, k, q) && p in cfg.pods && p != q && Stray(cfg, s, k, p)
    requires LocalOf(cfg, s, k, q).pc.Labelling?
    ensures CanHappen(cfg, s, NextStep(cfg, s, k, q))
    ensures NearerHome(cfg, s, Next(cfg, s, NextStep(cfg, s, k, q)), k, p, q)
  {
    var h, l := HistoryOf(cfg, s, k), LocalOf(cfg, s, k, q);
    AtPair(cfg, s, k, q);
    LabelEffect(cfg, s, k, q, Delivered);
    HomeLabel(cfg, k, q, h, l, PlanBound(cfg, h));
    assert Exports(cfg, s, k, q) != map[] by {
      PairShowsWhole(cfg, k, q, h, l, s.gauges[q]);
      ExpectedIsNotEmpty(cfg.targets, k, l.pc.copy.obj.report);
    }
  }

  lemma HomewardStep(cfg: Config, s: State, k: Key, p: Pod, q: Pod)
    requires Inv(cfg, s) && ComesHome(cfg, s, k, q) && p in cfg.pods && p != q && Stray(cfg, s, k, p)
    requires !AtWrite(LocalOf(cfg, s, k, q).pc)
    ensures CanHappen(cfg, s, NextStep(cfg, s, k, q))
    ensures NearerHome(cfg, s, Next(cfg, s, NextStep(cfg, s, k, q)), k, p, q)
  {
    VisitMovesOn(cfg, s, k, q);
    NoRetryOnVisit(cfg, s, k, q);
  }

  lemma FreeVisit(k: Key, h: History, l: Local)
    requires Visit(k, h, l) && Free(k, h)
    ensures !l.pc.Finalizing?
  {
  }

  lemma HomeStep(cfg: Config, s: State, k: Key, p: Pod, q: Pod)
    requires Inv(cfg, s) && ComesHome(cfg, s, k, q) && p in cfg.pods && p != q && Stray(cfg, s, k, p)
    ensures CanHappen(cfg, s, NextStep(cfg, s, k, q))
    ensures NearerHome(cfg, s, Next(cfg, s, NextStep(cfg, s, k, q)), k, p, q)
  {
    FreeVisit(k, HistoryOf(cfg, s, k), LocalOf(cfg, s, k, q));
    if LocalOf(cfg, s, k, q).pc.Labelling? {
      HomeLabelStep(cfg, s, k, p, q);
    } else {
      HomewardStep(cfg, s, k, p, q);
    }
  }

  lemma {:induction false} HomeRun(cfg: Config, s: State, k: Key, p: Pod, q: Pod) returns (steps: seq<Step>)
    requires cfg.Valid() && Inv(cfg, s) && ComesHome(cfg, s, k, q) && p in cfg.pods && p != q && Stray(cfg, s, k, p)
    ensures CanRun(cfg, s, steps) && AllEvents(steps) && BothExport(cfg, After(cfg, s, steps), k, p, q)
    decreases WorkLeft(cfg, s, k, q)
  {
    var step := NextStep(cfg, s, k, q);
    HomeStep(cfg, s, k, p, q);
    StepKeeps(cfg, s, step);
    var s', rest := Next(cfg, s, step), [];
    if !BothExport(cfg, s', k, p, q) {
      rest := HomeRun(cfg, s', k, p, q);
    }
    Prepend(cfg, s, step, rest);
    steps := [step] + rest;
  }

  lemma {:induction false} StrayThenHome(cfg: Config, s: State, k: Key, p: Pod, q: Pod) returns (steps: seq<Step>)
    requires cfg.Valid() && Inv(cfg, s) && HasTurn(cfg, s, k, p) && ComesHome(cfg, s, k, q) && p != q
    ensures CanRun(cfg, s, steps) && AllEvents(steps) && BothExport(cfg, After(cfg, s, steps), k, p, q)
    decreases WorkLeft(cfg, s, k, p)
  {
    var step := StrayStep(cfg, s, k, p);
    StrayStepMovesOn(cfg, s, k, p);
    StepKeeps(cfg, s, step);
    var s', rest := Next(cfg, s, step), [];
    if Stray(cfg, s', k, p) {
      rest := HomeRun(cfg, s', k, p, q);
    } else {
      rest := StrayThenHome(cfg, s', k, p, q);
    }
    Prepend(cfg, s, step, rest);
    steps := [step] + rest;
  }

  lemma LabelThenTurn(cfg: Config, s: State, k: Key, p: Pod, q: Pod)
    requires cfg.Valid() && Inv(cfg, s) && HasTurn(cfg, s, k, q) && Contested(cfg, s, k, p, q)
    requires LocalOf(cfg, s, k, q).pc.Labelling? && !LocalOf(cfg, s, k, p).retry
    ensures CanHappen(cfg, s, NextStep(cfg, s, k, q))
    ensures var s' := Next(cfg, s, NextStep(cfg, s, k, q));
            HasTurn(cfg, s', k, p) && ComesHome(cfg, s', k, q)
  {
    ContestTurns(cfg, s, k, p, q);
    LabelEffect(cfg, s, k, q, Delivered);
  }

  lemma {:induction false} LabelThenStray(cfg: Config, s: State, k: Key, p: Pod, q: Pod) returns (steps: seq<Step>)
    requires cfg.Valid() && Inv(cfg, s) && HasTurn(cfg, s, k, q) && Contested(cfg, s, k, p, q)
    requires !LocalOf(cfg, s, k, p).retry
    ensures CanRun(cfg, s, steps) && AllEvents(steps) && BothExport(cfg, After(cfg, s, steps), k, p, q)
    decreases WorkLeft(cfg, s, k, q)
  {
    var step := NextStep(cfg, s, k, q);
    var rest;
    if LocalOf(cfg, s, k, q).pc.Labelling? {
      LabelThenTurn(cfg, s, k, p, q);
      StepKeeps(cfg, s, step);
      rest := StrayThenHome(cfg, Next(cfg, s, step), k, p, q);
    } else {
      ContestGoesOn(cfg, s, k, p, q);
      VisitMovesOn(cfg, s, k, q);
      NoRetryOnVisit(cfg, s, k, q);
      StepKeeps(cfg, s, step);
      rest := LabelThenStray(cfg, Next(cfg, s, step), k, p, q);
    }
    Prepend(cfg, s, step, rest);
    steps := [step] + rest;
  }

  lemma BothRest(cfg: Config, s: State, k: Key, p: Pod, q: Pod)
    requires WellFormed(cfg, s) && k in cfg.keys && cfg.pods == [p, q] && BothExport(cfg, s, k, p, q)
    ensures Settled(cfg, s, k) && Exports(cfg, s, k, p) != map[] && Exports(cfg, s, k, q) != map[]
  {
  }

  /** And a refused label write can leave a settled report with two exporters: one pod has labelled it, the other's
      label was refused, and both are at rest. */
  lemma TwoExportersFromStart(cfg: Config, k: Key, p: Pod, q: Pod, mine: set<Pod>, yours: set<Pod>, o: Object)
    returns (steps: seq<Step>)
    requires Rivals(cfg, k, p, q, mine, yours, o) && cfg.pods == [p, q]
    ensures CanRun(cfg, Init(cfg), Rivalry(k, p, q, mine, yours, o, steps)) && AllEvents(steps)
    ensures var s := After(cfg, Init(cfg), Rivalry(k, p, q, mine, yours, o, steps));
            Settled(cfg, s, k) && Exports(cfg, s, k, p) != map[] && Exports(cfg, s, k, q) != map[]
  {
    var s := RingsSet(cfg, k, p, q, mine, yours, o);
    RivalsMeet(cfg, s, k, p, q, mine, yours, o);
    steps := LabelThenStray(cfg, Next(cfg, s, ScannerPut(k, o)), k, p, q);
    BothRest(cfg, After(cfg, Next(cfg, s, ScannerPut(k, o)), steps), k, p, q);
    FromRivalry(cfg, s, k, p, q, mine, yours, o, steps);
  }
}
