/**
 * That the fleet can converge: a schedule of events under which nothing fails, and from every reachable state with
 * agreed rings a run of the pods' own steps that brings every report to its owner.
 */
module FleetSchedule {
  import opened Metrics
  import opened Gauges
  import opened Reports
  import opened Fleet
  import opened FleetControl
  import opened FleetGauges
  import opened FleetSafety
  import opened FleetTheorems
  import opened FleetQuiescence
  import opened FleetConvergence

  // ---- One pod ---------------------------------------------------------

  /** The pod has nothing to retry and, past its check, holds nothing older than the latest version. */
  predicate OnSchedule(h: History, l: Local) {
    && !l.retry
    && match l.pc
       case Owning => l.cached == Latest(h)
       case Loading(base) => base.ver == Latest(h)
       case Storing(c) => c.ver == Latest(h)
       case Ready(c) => c.ver == Latest(h)
       case Publishing(c, _, _) => c.ver == Latest(h)
       case Finalizing(c) => c.ver == Latest(h)
       case _ => true
  }

  predicate HasWork(h: History, l: Local) {
    !l.pc.Idle? || l.queued || l.cached < Latest(h)
  }

  /** A pod hears of the latest version before it checks whether it is the owner. */
  ghost function ScheduledEvent(h: History, l: Local): Action {
    if !PastCheck(l.pc) && l.cached < Latest(h) then Deliver(Latest(h)) else NextEvent(h, l)
  }

  lemma ScheduledIsEnabled(cfg: Config, k: Key, p: Pod, ring: set<Pod>, h: History, l: Local)
    requires l.cached < |h| && ring != {} && HasWork(h, l)
    ensures IsEvent(ScheduledEvent(h, l)) && Enabled(cfg, k, p, ring, h, l, ScheduledEvent(h, l))
  {
    WorkIsEnabled(cfg, k, p, ring, h, l);
  }

  /** Nothing but a pod past its check writes, and nothing fails. */
  ghost predicate KeepsSchedule(h: History, l: Local, h': History, l': Local) {
    OnSchedule(h', l') && (h' != h ==> PastCheck(l.pc))
  }

  lemma WritesKeepSchedule(k: Key, p: Pod, h: History, l: Local)
    requires OnSchedule(h, l)
    ensures l.pc.Finalizing? && Genuine(h, l.pc.copy) ==>
              var r := RemovingFinalizer(h, l, Delivered); KeepsSchedule(h, l, r.history, r.local)
    ensures l.pc.Labelling? ==>
              var r := WritingLabel(k, p, h, l, Delivered); KeepsSchedule(h, l, r.history, r.local)
  {
  }

  lemma ReadsKeepSchedule(cfg: Config, k: Key, p: Pod, ring: set<Pod>, h: History, l: Local)
    requires OnSchedule(h, l) && l.cached < |h|
    ensures l.pc.Cleared? && l.cached == Latest(h) ==> KeepsSchedule(h, l, h, Checking(cfg, k, p, ring, l))
    ensures l.pc.Owning? ==> KeepsSchedule(h, l, h, ReadingBase(h, l, false))
    ensures l.pc.Loading? ==> KeepsSchedule(h, l, h, LoadingStore(l))
    ensures l.pc.Hydrating? ==> KeepsSchedule(h, l, h, ReadingApi(h, l))
    ensures l.pc.Storing? ==> KeepsSchedule(h, l, h, WritingStore(l))
  {
  }

  lemma OthersKeepSchedule(cfg: Config, k: Key, h: History, l: Local)
    requires OnSchedule(h, l)
    ensures !PastCheck(l.pc) && l.cached < Latest(h) ==> KeepsSchedule(h, l, h, Delivering(h, l, Latest(h)))
    ensures l.pc.Idle? ==> KeepsSchedule(h, l, h, Taking(l))
    ensures l.pc.Taken? ==> KeepsSchedule(h, l, h, l.(pc := SummariesCleared))
    ensures l.pc.SummariesCleared? ==> KeepsSchedule(h, l, h, l.(pc := Cleared))
    ensures forall order | l.pc.Ready? && IsOrder(order, Counts(l.pc.copy.obj.report).Keys) ::
              KeepsSchedule(h, l, h, Starting(cfg, k, l, order))
    ensures l.pc.Publishing? ==> KeepsSchedule(h, l, h, l.(pc := l.pc.(next := l.pc.next + 1)))
    ensures l.pc.Publishing? ==> KeepsSchedule(h, l, h, EndingPublish(k, l))
  {
  }

  lemma EventKeepsSchedule(cfg: Config, k: Key, p: Pod, ring: set<Pod>, h: History, l: Local, g: Store)
    requires ControlInv(cfg, k, p, h, l) && OnSchedule(h, l) && ring != {} && HasWork(h, l)
    requires Enabled(cfg, k, p, ring, h, l, ScheduledEvent(h, l))
    ensures var e := Act(cfg, k, p, ring, h, l, g, ScheduledEvent(h, l)); KeepsSchedule(h, l, e.history, e.local)
  {
    if ScheduledEvent(h, l).Deliver? {
      OthersKeepSchedule(cfg, k, h, l);
    } else if l.pc.Finalizing? || l.pc.Labelling? {
      WritesKeepSchedule(k, p, h, l);
    } else if l.pc.Cleared? || l.pc.Owning? || l.pc.Loading? || l.pc.Hydrating? || l.pc.Storing? {
      ReadsKeepSchedule(cfg, k, p, ring, h, l);
    } else {
      OthersKeepSchedule(cfg, k, h, l);
    }
  }

  // ---- One report ------------------------------------------------------

  ghost predicate IsPast(cfg: Config, s: State, k: Key, p: Pod)
    requires WellFormed(cfg, s) && k in cfg.keys && p in cfg.pods
  {
    PastCheck(LocalOf(cfg, s, k, p).pc)
  }

  /** All pods are on schedule, and at most one is past its check. */
  ghost predicate Scheduled(cfg: Config, s: State, k: Key)
    requires WellFormed(cfg, s) && k in cfg.keys
  {
    && (forall p | p in cfg.pods :: OnSchedule(HistoryOf(cfg, s, k), LocalOf(cfg, s, k, p)))
    && (forall p, q | p in cfg.pods && q in cfg.pods && IsPast(cfg, s, k, p) && IsPast(cfg, s, k, q) :: p == q)
  }

  /** The pod has work and does not overtake one that is past its check. */
  ghost predicate MayGo(cfg: Config, s: State, k: Key, p: Pod)
    requires WellFormed(cfg, s) && k in cfg.keys
  {
    && p in cfg.pods && HasWork(HistoryOf(cfg, s, k), LocalOf(cfg, s, k, p))
    && forall q | q in cfg.pods && IsPast(cfg, s, k, q) :: q == p
  }

  ghost function ScheduledStep(cfg: Config, s: State, k: Key, p: Pod): Step
    requires WellFormed(cfg, s) && k in cfg.keys && p in cfg.pods
  {
    Exporter(k, p, ScheduledEvent(HistoryOf(cfg, s, k), LocalOf(cfg, s, k, p)))
  }

  lemma SomePodMayGo(cfg: Config, s: State, k: Key, p: Pod)
    requires WellFormed(cfg, s) && k in cfg.keys && p in cfg.pods && Scheduled(cfg, s, k)
    requires HasWork(HistoryOf(cfg, s, k), LocalOf(cfg, s, k, p))
    ensures exists q :: MayGo(cfg, s, k, q)
  {
    if q :| q in cfg.pods && IsPast(cfg, s, k, q) {
      assert MayGo(cfg, s, k, q);
    } else {
      assert MayGo(cfg, s, k, p);
    }
  }

  lemma ScheduledCanHappen(cfg: Config, s: State, k: Key, p: Pod)
    requires Inv(cfg, s) && k in cfg.keys && MayGo(cfg, s, k, p) && s.rings[p] != {}
    ensures CanHappen(cfg, s, ScheduledStep(cfg, s, k, p))
  {
    AtPair(cfg, s, k, p);
    ScheduledIsEnabled(cfg, k, p, s.rings[p], HistoryOf(cfg, s, k), LocalOf(cfg, s, k, p));
  }

  /** What the step does to the pod itself, and that it does nothing to the others. */
  lemma ScheduledEffect(cfg: Config, s: State, k: Key, p: Pod)
    requires Inv(cfg, s) && k in cfg.keys && MayGo(cfg, s, k, p) && s.rings[p] != {}
    requires Scheduled(cfg, s, k) && CanHappen(cfg, s, ScheduledStep(cfg, s, k, p))
    ensures var s' := Next(cfg, s, ScheduledStep(cfg, s, k, p));
            && KeepsSchedule(HistoryOf(cfg, s, k), LocalOf(cfg, s, k, p), HistoryOf(cfg, s', k), LocalOf(cfg, s', k, p))
            && forall q | q in cfg.pods && q != p :: LocalOf(cfg, s', k, q) == LocalOf(cfg, s, k, q)
  {
    AtPair(cfg, s, k, p);
    EventKeepsSchedule(cfg, k, p, s.rings[p], HistoryOf(cfg, s, k), LocalOf(cfg, s, k, p), s.gauges[p]);
  }

  lemma StepKeepsSchedule(cfg: Config, s: State, s': State, k: Key, p: Pod)
    requires WellFormed(cfg, s) && WellFormed(cfg, s') && k in cfg.keys && Scheduled(cfg, s, k) && MayGo(cfg, s, k, p)
    requires KeepsSchedule(HistoryOf(cfg, s, k), LocalOf(cfg, s, k, p), HistoryOf(cfg, s', k), LocalOf(cfg, s', k, p))
    requires forall q | q in cfg.pods && q != p :: LocalOf(cfg, s', k, q) == LocalOf(cfg, s, k, q)
    ensures Scheduled(cfg, s', k)
  {
    forall q | q in cfg.pods
      ensures OnSchedule(HistoryOf(cfg, s', k), LocalOf(cfg, s', k, q))
      ensures IsPast(cfg, s', k, q) ==> q == p
    {
      if q != p {
        assert IsPast(cfg, s, k, q) ==> q == p;
        assert OnSchedule(HistoryOf(cfg, s, k), LocalOf(cfg, s, k, q));
      }
    }
  }

  // ---- Several reports -------------------------------------------------

  /** Every report of the list is on schedule and will be checked under these members, as the rings have them. */
  ghost predicate AllScheduled(cfg: Config, s: State, ks: seq<Key>, members: set<Pod>)
    requires WellFormed(cfg, s)
  {
    && AgreedRings(cfg, s, members)
    && forall k | k in ks :: k in cfg.keys && Scheduled(cfg, s, k) && AllWillCheck(cfg, s, k, members)
  }

  lemma OthersStayScheduled(cfg: Config, s: State, s': State, k: Key)
    requires WellFormed(cfg, s) && WellFormed(cfg, s') && k in cfg.keys && s'.keys[k] == s.keys[k]
    ensures Scheduled(cfg, s, k) ==> Scheduled(cfg, s', k)
  {
  }

  lemma ScheduledStepKeeps(cfg: Config, s: State, ks: seq<Key>, members: set<Pod>, k: Key, p: Pod)
    requires Inv(cfg, s) && AllScheduled(cfg, s, ks, members) && k in ks && MayGo(cfg, s, k, p)
    requires CanHappen(cfg, s, ScheduledStep(cfg, s, k, p))
    ensures AllScheduled(cfg, Next(cfg, s, ScheduledStep(cfg, s, k, p)), ks, members)
  {
    var step := ScheduledStep(cfg, s, k, p);
    var s' := Next(cfg, s, step);
    GaugesAfter(cfg, s, k, p, step.action);
    forall k' | k' in ks
      ensures k' in cfg.keys && Scheduled(cfg, s', k') && AllWillCheck(cfg, s', k', members)
    {
      EventWillCheck(cfg, s, step, k', members);
      if k' == k {
        ScheduledEffect(cfg, s, k, p);
        StepKeepsSchedule(cfg, s, s', k, p);
      } else {
        OthersStayScheduled(cfg, s, s', k');
      }
    }
  }

  /** When nothing on the list may go on, it has converged. */
  lemma DoneHasConverged(cfg: Config, s: State, ks: seq<Key>, members: set<Pod>, k: Key)
    requires Inv(cfg, s) && AllScheduled(cfg, s, ks, members) && k in ks
    requires forall p :: !MayGo(cfg, s, k, p)
    ensures Converged(cfg, s, k, members)
  {
    forall p | p in cfg.pods
      ensures LocalOf(cfg, s, k, p).pc.Idle? && !Pending(HistoryOf(cfg, s, k), LocalOf(cfg, s, k, p))
    {
      assert OnSchedule(HistoryOf(cfg, s, k), LocalOf(cfg, s, k, p));
      if HasWork(HistoryOf(cfg, s, k), LocalOf(cfg, s, k, p)) {
        SomePodMayGo(cfg, s, k, p);
      }
    }
    RestHasChecked(cfg, s, k, members);
    SettledConverges(cfg, s, k, members);
  }

  ghost predicate Goes(cfg: Config, s: State, ks: seq<Key>, k: Key, p: Pod)
    requires WellFormed(cfg, s)
  {
    k in ks && k in cfg.keys && MayGo(cfg, s, k, p)
  }

  function Owners(cfg: Config, members: set<Pod>): map<Key, Pod> {
    map k | k in cfg.keys :: cfg.Owner(members, k)
  }

  ghost predicate ConvergedAll(cfg: Config, s: State, ks: seq<Key>, members: set<Pod>)
    requires WellFormed(cfg, s)
  {
    forall k | k in ks :: k in cfg.keys && Converged(cfg, s, k, members)
  }

  lemma AllDone(cfg: Config, s: State, ks: seq<Key>, members: set<Pod>)
    requires Inv(cfg, s) && AllScheduled(cfg, s, ks, members)
    requires forall k, p :: !Goes(cfg, s, ks, k, p)
    ensures ConvergedAll(cfg, s, ks, members)
  {
    forall k | k in ks
      ensures k in cfg.keys && Converged(cfg, s, k, members)
    {
      forall p ensures !MayGo(cfg, s, k, p) { assert !Goes(cfg, s, ks, k, p); }
      DoneHasConverged(cfg, s, ks, members, k);
    }
  }

  /** What every scheduled run keeps. */
  ghost predicate OnCourse(cfg: Config, s: State, ks: seq<Key>, members: set<Pod>) {
    Inv(cfg, s) && AllScheduled(cfg, s, ks, members) && SoleBelievers(cfg, s, Owners(cfg, members))
  }

  ghost function EnergyOf(cfg: Config, s: State, members: set<Pod>): nat
    requires WellFormed(cfg, s)
  {
    Energy(cfg, s, Owners(cfg, members), cfg.keys)
  }

  lemma ScheduleMovesOn(cfg: Config, s: State, ks: seq<Key>, members: set<Pod>, k: Key, p: Pod)
    requires cfg.Valid() && OnCourse(cfg, s, ks, members) && Goes(cfg, s, ks, k, p)
    ensures CanHappen(cfg, s, ScheduledStep(cfg, s, k, p))
    ensures var s' := Next(cfg, s, ScheduledStep(cfg, s, k, p));
            OnCourse(cfg, s', ks, members) && EnergyOf(cfg, s', members) < EnergyOf(cfg, s, members)
  {
    ScheduledCanHappen(cfg, s, k, p);
    ScheduledStepKeeps(cfg, s, ks, members, k, p);
    EventLowers(cfg, s, ScheduledStep(cfg, s, k, p), Owners(cfg, members));
    StepKeeps(cfg, s, ScheduledStep(cfg, s, k, p));
  }

  lemma {:induction false} ScheduleRun(cfg: Config, s: State, ks: seq<Key>, members: set<Pod>)
    returns (steps: seq<Step>)
    requires cfg.Valid() && OnCourse(cfg, s, ks, members)
    ensures CanRun(cfg, s, steps) && AllEvents(steps) && ConvergedAll(cfg, After(cfg, s, steps), ks, members)
    decreases EnergyOf(cfg, s, members)
  {
    if k, p :| Goes(cfg, s, ks, k, p) {
      var step := ScheduledStep(cfg, s, k, p);
      ScheduleMovesOn(cfg, s, ks, members, k, p);
      var rest := ScheduleRun(cfg, Next(cfg, s, step), ks, members);
      Prepend(cfg, s, step, rest);
      steps := [step] + rest;
    } else {
      AllDone(cfg, s, ks, members);
      steps := [];
    }
  }

  lemma FiredIsScheduled(cfg: Config, s: State, ks: seq<Key>, members: set<Pod>)
    requires Inv(cfg, s) && AgreedRings(cfg, s, members)
    requires forall k | k in ks :: k in cfg.keys && TimersFired(cfg, s, k)
    ensures AllScheduled(cfg, s, ks, members)
  {
    forall k | k in ks
      ensures Scheduled(cfg, s, k) && AllWillCheck(cfg, s, k, members)
    {
      FiredWillCheck(cfg, s, k, members);
    }
  }

  /** From every reachable state in which the rings agree and the timers of some reports have fired, some run of events
      ends with all of these at their owners, and nowhere else. */
  lemma EventsCanConverge(cfg: Config, s: State, ks: seq<Key>, members: set<Pod>) returns (steps: seq<Step>)
    requires cfg.Valid() && Reachable(cfg, s) && AgreedRings(cfg, s, members)
    requires forall k | k in ks :: k in cfg.keys && TimersFired(cfg, s, k)
    ensures CanRun(cfg, s, steps) && AllEvents(steps) && ConvergedAll(cfg, After(cfg, s, steps), ks, members)
  {
    ReachableInv(cfg, s);
    FiredIsScheduled(cfg, s, ks, members);
    AgreementIsSole(cfg, s, members);
    steps := ScheduleRun(cfg, s, ks, members);
  }

  // ---- From anywhere ---------------------------------------------------

  /** Steps of running pods: no scanner, no ring change, no restart, no shutdown. */
  predicate IsPodsOwn(step: Step) {
    step.Exporter? && !step.action.ShutdownRead? && !step.action.ShutdownWrite?
  }

  predicate AllPodsOwn(steps: seq<Step>) {
    forall i | 0 <= i < |steps| :: IsPodsOwn(steps[i])
  }

  lemma PrependOwn(cfg: Config, s: State, step: Step, rest: seq<Step>)
    requires Allowed(cfg, s, step) && IsPodsOwn(step)
    requires CanRun(cfg, Next(cfg, s, step), rest) && AllPodsOwn(rest)
    ensures CanRun(cfg, s, [step] + rest) && AllPodsOwn([step] + rest)
    ensures After(cfg, s, [step] + rest) == After(cfg, Next(cfg, s, step), rest)
  {
    FirstStep(cfg, s, step, rest);
  }

  lemma EventsArePodsOwn(steps: seq<Step>)
    requires AllEvents(steps)
    ensures AllPodsOwn(steps)
  {
  }

  ghost predicate NoneRunning(cfg: Config, s: State)
    requires WellFormed(cfg, s)
  {
    forall k, p | k in cfg.keys && p in cfg.pods :: LocalOf(cfg, s, k, p).pc.Idle?
  }

  /** The timers (marked true) and retries (marked false) that are running. */
  ghost function Alarms(cfg: Config, s: State): set<(Key, Pod, bool)>
    requires WellFormed(cfg, s)
  {
    (set k, p | k in cfg.keys && p in cfg.pods && LocalOf(cfg, s, k, p).timer :: (k, p, true))
    + (set k, p | k in cfg.keys && p in cfg.pods && LocalOf(cfg, s, k, p).retry :: (k, p, false))
  }

  lemma AlarmEffect(cfg: Config, s: State, k: Key, p: Pod, timer: bool)
    requires WellFormed(cfg, s) && k in cfg.keys && p in cfg.pods
    requires if timer then LocalOf(cfg, s, k, p).timer else LocalOf(cfg, s, k, p).retry
    ensures var step := Exporter(k, p, if timer then TimerFires else RetryFires);
            Allowed(cfg, s, step)
            && var s', l := Next(cfg, s, step), LocalOf(cfg, s, k, p);
               && s'.rings == s.rings
               && LocalOf(cfg, s', k, p) == l.(queued := true, timer := l.timer && !timer, retry := l.retry && timer)
               && forall k', p' | k' in cfg.keys && p' in cfg.pods && (k' != k || p' != p) ::
                    LocalOf(cfg, s', k', p') == LocalOf(cfg, s, k', p')
  {
  }

  lemma OneAlarmLess(cfg: Config, s: State, s': State, k: Key, p: Pod, timer: bool)
    requires WellFormed(cfg, s) && WellFormed(cfg, s') && k in cfg.keys && p in cfg.pods
    requires if timer then LocalOf(cfg, s, k, p).timer else LocalOf(cfg, s, k, p).retry
    requires var l := LocalOf(cfg, s, k, p);
             LocalOf(cfg, s', k, p) == l.(queued := true, timer := l.timer && !timer, retry := l.retry && timer)
    requires forall k', p' | k' in cfg.keys && p' in cfg.pods && (k' != k || p' != p) ::
               LocalOf(cfg, s', k', p') == LocalOf(cfg, s, k', p')
    ensures Alarms(cfg, s') == Alarms(cfg, s) - {(k, p, timer)}
    ensures (k, p, timer) in Alarms(cfg, s)
  {
  }

  lemma AlarmGoesOff(cfg: Config, s: State, alarm: (Key, Pod, bool))
    requires WellFormed(cfg, s) && alarm in Alarms(cfg, s) && NoneRunning(cfg, s)
    ensures var step := Exporter(alarm.0, alarm.1, if alarm.2 then TimerFires else RetryFires);
            Allowed(cfg, s, step)
            && var s' := Next(cfg, s, step);
               Alarms(cfg, s') < Alarms(cfg, s) && NoneRunning(cfg, s') && s'.rings == s.rings
  {
    var (k, p, timer) := alarm;
    AlarmEffect(cfg, s, k, p, timer);
    OneAlarmLess(cfg, s, Next(cfg, s, Exporter(k, p, if timer then TimerFires else RetryFires)), k, p, timer);
  }

  lemma SilentIsFired(cfg: Config, s: State)
    requires WellFormed(cfg, s) && NoneRunning(cfg, s) && Alarms(cfg, s) == {}
    ensures forall k | k in cfg.keys :: TimersFired(cfg, s, k)
  {
    forall k, p | k in cfg.keys && p in cfg.pods
      ensures !LocalOf(cfg, s, k, p).timer && !LocalOf(cfg, s, k, p).retry
    {
      assert (k, p, true) !in Alarms(cfg, s) && (k, p, false) !in Alarms(cfg, s);
    }
  }

  lemma {:induction false} AlarmRun(cfg: Config, s: State, members: set<Pod>) returns (steps: seq<Step>)
    requires cfg.Valid() && Inv(cfg, s) && AgreedRings(cfg, s, members) && NoneRunning(cfg, s)
    ensures CanRun(cfg, s, steps) && AllPodsOwn(steps) && ConvergedAll(cfg, After(cfg, s, steps), cfg.keys, members)
    decreases Alarms(cfg, s)
  {
    if alarm :| alarm in Alarms(cfg, s) {
      var step := Exporter(alarm.0, alarm.1, if alarm.2 then TimerFires else RetryFires);
      AlarmGoesOff(cfg, s, alarm);
      StepKeeps(cfg, s, step);
      var rest := AlarmRun(cfg, Next(cfg, s, step), members);
      PrependOwn(cfg, s, step, rest);
      steps := [step] + rest;
    } else {
      SilentIsFired(cfg, s);
      FiredIsScheduled(cfg, s, cfg.keys, members);
      AgreementIsSole(cfg, s, members);
      steps := ScheduleRun(cfg, s, cfg.keys, members);
      EventsArePodsOwn(steps);
    }
  }

  lemma RestIsIdle(cfg: Config, s: State, members: set<Pod>)
    requires Inv(cfg, s) && AgreedRings(cfg, s, members)
    requires forall step :: !CanHappen(cfg, s, step)
    ensures NoneRunning(cfg, s)
  {
    forall k, p | k in cfg.keys && p in cfg.pods
      ensures LocalOf(cfg, s, k, p).pc.Idle?
    {
      var h, l := HistoryOf(cfg, s, k), LocalOf(cfg, s, k, p);
      AtPair(cfg, s, k, p);
      if !l.pc.Idle? {
        WorkIsEnabled(cfg, k, p, s.rings[p], h, l);
        assert CanHappen(cfg, s, Exporter(k, p, NextEvent(h, l)));
      }
    }
  }

  lemma RingsStay(cfg: Config, s: State, step: Step, members: set<Pod>)
    requires Allowed(cfg, s, step) && step.Exporter? && AgreedRings(cfg, s, members)
    ensures AgreedRings(cfg, Next(cfg, s, step), members)
  {
  }

  lemma {:induction false} SettlingRun(cfg: Config, s: State, members: set<Pod>) returns (steps: seq<Step>)
    requires cfg.Valid() && Inv(cfg, s) && AgreedRings(cfg, s, members) && SoleBelievers(cfg, s, Owners(cfg, members))
    ensures CanRun(cfg, s, steps) && AllPodsOwn(steps) && ConvergedAll(cfg, After(cfg, s, steps), cfg.keys, members)
    decreases EnergyOf(cfg, s, members)
  {
    if step :| CanHappen(cfg, s, step) {
      EventLowers(cfg, s, step, Owners(cfg, members));
      StepKeeps(cfg, s, step);
      RingsStay(cfg, s, step, members);
      var rest := SettlingRun(cfg, Next(cfg, s, step), members);
      PrependOwn(cfg, s, step, rest);
      steps := [step] + rest;
    } else {
      RestIsIdle(cfg, s, members);
      steps := AlarmRun(cfg, s, members);
    }
  }

  /** Convergence is never out of reach: from every reachable state in which the rings agree, whatever has gone wrong
      before, the pods have a run of their own steps after which every report is shown by its owner in its latest
      version, and by nobody else. */
  lemma CanAlwaysConverge(cfg: Config, s: State, members: set<Pod>) returns (steps: seq<Step>)
    requires cfg.Valid() && Reachable(cfg, s) && AgreedRings(cfg, s, members)
    ensures CanRun(cfg, s, steps) && AllPodsOwn(steps) && ConvergedAll(cfg, After(cfg, s, steps), cfg.keys, members)
  {
    ReachableInv(cfg, s);
    AgreementIsSole(cfg, s, members);
    steps := SettlingRun(cfg, s, members);
  }
}
