/** Where the runs of events end: agreed rings bring every report to its owner. */
module FleetConvergence {
  import opened Metrics
  import opened Gauges
  import opened Reports
  import opened Fleet
  import opened FleetControl
  import opened FleetGauges
  import opened FleetSafety
  import opened FleetTheorems
  import opened FleetQuiescence

  ghost predicate AgreedRings(cfg: Config, s: State, members: set<Pod>)
    requires WellFormed(cfg, s)
  {
    members != {} && forall p | p in cfg.pods :: s.rings[p] == members
  }

  /** No event can happen for the report any more. */
  ghost predicate AtRest(cfg: Config, s: State, k: Key)
    requires k in cfg.keys
  {
    forall p, a | p in cfg.pods && IsEvent(a) :: !Allowed(cfg, s, Exporter(k, p, a))
  }

  // ---- A state without events is settled -------------------------------

  lemma OrderExists(r: Report)
    ensures exists order :: IsOrder(order, Counts(r).Keys)
  {
    if r.Kubescape? {
      var order := ["CRITICAL", "HIGH", "MEDIUM", "LOW", "NEGLIGIBLE", "UNKNOWN"];
      assert IsOrder(order, KUBESCAPE_SEVERITIES) && Counts(r).Keys == KUBESCAPE_SEVERITIES;
    } else {
      var order := ["CRITICAL", "HIGH", "MEDIUM", "LOW", "UNKNOWN"];
      assert IsOrder(order, TRIVY_SEVERITIES) && Counts(r).Keys == TRIVY_SEVERITIES;
    }
  }

  /** An event that a pod with work to do can take. */
  ghost function NextEvent(h: History, l: Local): Action {
    match l.pc
    case Idle => if l.cached < Latest(h) then Deliver(Latest(h)) else Take
    case Taken => ClearSummaries
    case SummariesCleared => ClearDetails
    case Cleared => CheckOwner
    case Owning => ReadBase(false)
    case Loading(_) => LoadStore
    case Hydrating(_) => ReadApi
    case Storing(_) => WriteStore
    case Ready(c) =>
      OrderExists(c.obj.report);
      var order :| IsOrder(order, Counts(c.obj.report).Keys);
      Start(order)
    case Publishing(_, plan, next) => if next < |plan| then PublishNext else EndPublish
    case Finalizing(_) => RemoveFinalizer(Delivered)
    case Labelling(_) => WriteLabel(Delivered)
  }

  lemma WorkIsEnabled(cfg: Config, k: Key, p: Pod, ring: set<Pod>, h: History, l: Local)
    requires l.cached < |h| && ring != {}
    requires !l.pc.Idle? || l.queued || l.cached < Latest(h)
    ensures IsEvent(NextEvent(h, l)) && Enabled(cfg, k, p, ring, h, l, NextEvent(h, l))
  {
  }

  lemma RestingPod(cfg: Config, s: State, k: Key, p: Pod)
    requires Inv(cfg, s) && k in cfg.keys && p in cfg.pods && AtRest(cfg, s, k)
    requires s.rings[p] != {} && !LocalOf(cfg, s, k, p).retry
    ensures LocalOf(cfg, s, k, p).pc.Idle? && !Pending(HistoryOf(cfg, s, k), LocalOf(cfg, s, k, p))
  {
    var h, l := HistoryOf(cfg, s, k), LocalOf(cfg, s, k, p);
    AtPair(cfg, s, k, p);
    if !l.pc.Idle? || l.queued || l.cached < Latest(h) {
      WorkIsEnabled(cfg, k, p, s.rings[p], h, l);
      assert false;
    }
  }

  lemma RestIsSettled(cfg: Config, s: State, k: Key)
    requires Inv(cfg, s) && k in cfg.keys && AtRest(cfg, s, k)
    requires forall p | p in cfg.pods :: s.rings[p] != {} && !LocalOf(cfg, s, k, p).retry
    ensures Settled(cfg, s, k)
  {
    forall p | p in cfg.pods
      ensures LocalOf(cfg, s, k, p).pc.Idle? && !Pending(HistoryOf(cfg, s, k), LocalOf(cfg, s, k, p))
    {
      RestingPod(cfg, s, k, p);
    }
  }

  // ---- Every pod that had the report queued has checked it -------------

  /** The pod has decided about the report under these members, is going to, or has found none to decide about. */
  predicate WillCheck(l: Local, members: set<Pod>) {
    || l.queued
    || BeforeCheck(l.pc)
    || l.decided == Some(members)
    || (l.pc.Idle? && FoundNothing(l))
  }

  lemma ActionWillCheck(cfg: Config, k: Key, p: Pod, members: set<Pod>, h: History, l: Local, g: Store, a: Action)
    requires Enabled(cfg, k, p, members, h, l, a) && IsEvent(a) && WillCheck(l, members)
    ensures WillCheck(Act(cfg, k, p, members, h, l, g, a).local, members)
  {
  }

  ghost predicate AllWillCheck(cfg: Config, s: State, k: Key, members: set<Pod>)
    requires WellFormed(cfg, s) && k in cfg.keys
  {
    forall p | p in cfg.pods :: WillCheck(LocalOf(cfg, s, k, p), members)
  }

  lemma EventWillCheck(cfg: Config, s: State, step: Step, k: Key, members: set<Pod>)
    requires Allowed(cfg, s, step) && step.Exporter? && IsEvent(step.action) && k in cfg.keys
    requires AgreedRings(cfg, s, members) && AllWillCheck(cfg, s, k, members)
    ensures AgreedRings(cfg, Next(cfg, s, step), members) && AllWillCheck(cfg, Next(cfg, s, step), k, members)
  {
    var p := step.pod;
    if step.key == k {
      ActionWillCheck(cfg, k, p, members, HistoryOf(cfg, s, k), LocalOf(cfg, s, k, p), s.gauges[p], step.action);
    }
  }

  lemma {:induction false} RunWillCheck(cfg: Config, s: State, steps: seq<Step>, k: Key, members: set<Pod>)
    requires WellFormed(cfg, s) && CanRun(cfg, s, steps) && AllEvents(steps) && k in cfg.keys
    requires AgreedRings(cfg, s, members) && AllWillCheck(cfg, s, k, members)
    ensures AgreedRings(cfg, After(cfg, s, steps), members) && AllWillCheck(cfg, After(cfg, s, steps), k, members)
    decreases |steps|
  {
    if steps != [] {
      EventWillCheck(cfg, s, steps[0], k, members);
      AllEventsTail(steps);
      RunWillCheck(cfg, Next(cfg, s, steps[0]), steps[1..], k, members);
    }
  }

  lemma RestHasChecked(cfg: Config, s: State, k: Key, members: set<Pod>)
    requires WellFormed(cfg, s) && k in cfg.keys
    requires Settled(cfg, s, k) && AllWillCheck(cfg, s, k, members)
    ensures CheckedUnder(cfg, s, k, members)
  {
    forall p | p in cfg.pods
      ensures FoundNothing(LocalOf(cfg, s, k, p)) || LocalOf(cfg, s, k, p).decided == Some(members)
    {
      assert WillCheck(LocalOf(cfg, s, k, p), members);
      assert LocalOf(cfg, s, k, p).pc.Idle? && !LocalOf(cfg, s, k, p).queued;
    }
  }

  /** The timers and retries of a report have all fired, and no reconcile is past its ownership check. */
  ghost predicate TimersFired(cfg: Config, s: State, k: Key)
    requires WellFormed(cfg, s) && k in cfg.keys
  {
    forall p | p in cfg.pods ::
      var l := LocalOf(cfg, s, k, p);
      !l.timer && !l.retry && (l.pc.Idle? || BeforeCheck(l.pc))
  }

  lemma FiredWillCheck(cfg: Config, s: State, k: Key, members: set<Pod>)
    requires Inv(cfg, s) && k in cfg.keys && TimersFired(cfg, s, k)
    ensures AllWillCheck(cfg, s, k, members)
  {
    forall p | p in cfg.pods
      ensures WillCheck(LocalOf(cfg, s, k, p), members)
    {
      AtPair(cfg, s, k, p);
    }
  }

  /**
   * From any reachable state in which all rings agree, once the timers have fired, every run of events that cannot go
   * on, and leaves no failed attempt to be retried, ends with the report exported by the ring's owner, in its latest
   * version, and by nobody else.
   */
  lemma EventsConverge(cfg: Config, s: State, steps: seq<Step>, k: Key, members: set<Pod>)
    requires cfg.Valid() && Reachable(cfg, s) && k in cfg.keys
    requires AgreedRings(cfg, s, members) && TimersFired(cfg, s, k)
    requires CanRun(cfg, s, steps) && AllEvents(steps)
    requires AtRest(cfg, After(cfg, s, steps), k)
    requires forall p | p in cfg.pods :: !LocalOf(cfg, After(cfg, s, steps), k, p).retry
    ensures Converged(cfg, After(cfg, s, steps), k, members)
  {
    ReachableInv(cfg, s);
    RunKeeps(cfg, s, steps);
    FiredWillCheck(cfg, s, k, members);
    RunWillCheck(cfg, s, steps, k, members);
    var s' := After(cfg, s, steps);
    RestIsSettled(cfg, s', k);
    RestHasChecked(cfg, s', k, members);
    SettledConverges(cfg, s', k, members);
  }

  /** Agreed rings leave no report two believers. */
  lemma AgreementIsSole(cfg: Config, s: State, members: set<Pod>)
    requires WellFormed(cfg, s) && AgreedRings(cfg, s, members)
    ensures SoleBelievers(cfg, s, map k | k in cfg.keys :: cfg.Owner(members, k))
  {
  }

  ghost predicate CanHappen(cfg: Config, s: State, step: Step) {
    step.Exporter? && IsEvent(step.action) && Allowed(cfg, s, step)
  }

  lemma NothingHappensAtRest(cfg: Config, s: State)
    requires forall step :: !CanHappen(cfg, s, step)
    ensures forall k | k in cfg.keys :: AtRest(cfg, s, k)
  {
    forall k, p, a | k in cfg.keys && p in cfg.pods && IsEvent(a)
      ensures !Allowed(cfg, s, Exporter(k, p, a))
    {
      assert !CanHappen(cfg, s, Exporter(k, p, a));
    }
  }

  lemma FirstStep(cfg: Config, s: State, step: Step, rest: seq<Step>)
    requires Allowed(cfg, s, step) && CanRun(cfg, Next(cfg, s, step), rest)
    ensures CanRun(cfg, s, [step] + rest)
    ensures After(cfg, s, [step] + rest) == After(cfg, Next(cfg, s, step), rest)
  {
    assert ([step] + rest)[1..] == rest;
  }

  lemma Prepend(cfg: Config, s: State, step: Step, rest: seq<Step>)
    requires CanHappen(cfg, s, step)
    requires CanRun(cfg, Next(cfg, s, step), rest) && AllEvents(rest)
    ensures CanRun(cfg, s, [step] + rest) && AllEvents([step] + rest)
    ensures After(cfg, s, [step] + rest) == After(cfg, Next(cfg, s, step), rest)
  {
    FirstStep(cfg, s, step, rest);
  }

  /** A run to rest exists from every state without two believers that keeps the invariant. */
  lemma {:induction false} RunToRest(cfg: Config, s: State, believers: map<Key, Pod>) returns (steps: seq<Step>)
    requires cfg.Valid() && Inv(cfg, s) && SoleBelievers(cfg, s, believers)
    ensures CanRun(cfg, s, steps) && AllEvents(steps)
    ensures forall k | k in cfg.keys :: AtRest(cfg, After(cfg, s, steps), k)
    decreases Energy(cfg, s, believers, cfg.keys)
  {
    if step :| CanHappen(cfg, s, step) {
      EventLowers(cfg, s, step, believers);
      StepKeeps(cfg, s, step);
      var rest := RunToRest(cfg, Next(cfg, s, step), believers);
      Prepend(cfg, s, step, rest);
      steps := [step] + rest;
    } else {
      NothingHappensAtRest(cfg, s);
      steps := [];
    }
  }
}
